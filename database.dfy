/**
 * The in-memory picture of the document store: one sequence of records per
 * collection, in natural order. Each route handler is a method that reads and
 * writes these fields in the order the handler issues its queries.
 */
module Database {
  import opened Wrappers
  import opened Collections
  import opened OrderModel
  import opened ProductModel
  import opened ReviewModel
  import opened StoreModel

  function ProductIndex(ps: seq<Product>, id: ObjectId): (r: Option<nat>)
    ensures r.Some? ==> r.value < |ps| && ps[r.value].id == id
    ensures r.None? <==> forall j :: 0 <= j < |ps| ==> ps[j].id != id
  {
    FirstIndex(ps, (p: Product) => p.id == id)
  }

  function ReviewIndex(rs: seq<Review>, id: ObjectId): (r: Option<nat>)
    ensures r.Some? ==> r.value < |rs| && rs[r.value].id == id
    ensures r.None? <==> forall j :: 0 <= j < |rs| ==> rs[j].id != id
  {
    FirstIndex(rs, (x: Review) => x.id == id)
  }

  function OrderIndex(os: seq<Order>, id: ObjectId): (r: Option<nat>)
    ensures r.Some? ==> r.value < |os| && os[r.value].id == id
    ensures r.None? <==> forall j :: 0 <= j < |os| ==> os[j].id != id
  {
    FirstIndex(os, (o: Order) => o.id == id)
  }

  function StoreIndex(ss: seq<Store>, id: ObjectId): (r: Option<nat>)
    ensures r.Some? ==> r.value < |ss| && ss[r.value].id == id
    ensures r.None? <==> forall j :: 0 <= j < |ss| ==> ss[j].id != id
  {
    FirstIndex(ss, (s: Store) => s.id == id)
  }

  /** The product lookup only looks at ids, so tables that agree on ids agree on it. */
  lemma ProductIndexOnIds(a: seq<Product>, b: seq<Product>, id: ObjectId)
    requires |a| == |b| && forall i :: 0 <= i < |a| ==> a[i].id == b[i].id
    ensures ProductIndex(a, id) == ProductIndex(b, id)
  {
    assert FirstIndex(a, (p: Product) => p.id == id) == ProductIndex(a, id);
    assert FirstIndex(b, (p: Product) => p.id == id) == ProductIndex(b, id);
  }

  predicate UniqueProductIds(ps: seq<Product>) {
    forall i, j :: 0 <= i < j < |ps| ==> ps[i].id != ps[j].id
  }

  predicate UniqueReviewIds(rs: seq<Review>) {
    forall i, j :: 0 <= i < j < |rs| ==> rs[i].id != rs[j].id
  }

  /** The `_id` index and the schemas' `unique` indexes, which the store itself enforces. */
  predicate ProductsValid(ps: seq<Product>) {
    && UniqueProductIds(ps)
    && forall i, j :: 0 <= i < j < |ps| ==> ps[i].productSlug != ps[j].productSlug
  }

  predicate ReviewsValid(rs: seq<Review>) {
    UniqueReviewIds(rs)
  }

  /** Overwriting a review with one of the same id keeps the ids unique. */
  lemma ReviewsValidReplace(rs: seq<Review>, i: nat, r: Review)
    requires ReviewsValid(rs) && i < |rs| && r.id == rs[i].id
    ensures ReviewsValid(rs[i := r])
  {
    var s := rs[i := r];
    forall j, k | 0 <= j < k < |s| ensures s[j].id != s[k].id {
      assert s[j].id == rs[j].id && s[k].id == rs[k].id;
    }
  }

  /** Removing a review keeps the ids unique. */
  lemma ReviewsValidRemove(rs: seq<Review>, i: nat)
    requires ReviewsValid(rs) && i < |rs|
    ensures ReviewsValid(RemoveAt(rs, i))
  {
    var r := RemoveAt(rs, i);
    forall j, k | 0 <= j < k < |r| ensures r[j].id != r[k].id {
      if k < i {
      } else if j < i {
        assert r[k].id == rs[k + 1].id;
      } else {
        assert r[j].id == rs[j + 1].id && r[k].id == rs[k + 1].id;
      }
    }
  }

  predicate OrdersValid(os: seq<Order>) {
    && (forall i, j :: 0 <= i < j < |os| ==> os[i].id != os[j].id)
    && (forall i, j :: 0 <= i < j < |os| ==> os[i].storeSlug != os[j].storeSlug)
  }

  predicate StoresValid(ss: seq<Store>) {
    && (forall i, j :: 0 <= i < j < |ss| ==> ss[i].id != ss[j].id)
    && (forall i, j :: 0 <= i < j < |ss| ==> ss[i].storeSlug != ss[j].storeSlug)
  }

  /** Two product tables that differ at most in their stock counts. */
  predicate SameButStock(a: seq<Product>, b: seq<Product>) {
    |a| == |b| && forall i :: 0 <= i < |a| ==> b[i] == a[i].(stockAmount := b[i].stockAmount)
  }

  /** Setting one product's stock keeps the rest of the table as it was. */
  lemma SameButStockSet(a: seq<Product>, b: seq<Product>, j: nat, stock: int)
    requires SameButStock(a, b) && j < |b|
    ensures SameButStock(a, b[j := b[j].(stockAmount := stock)])
  {
  }

  lemma SameButStockValid(a: seq<Product>, b: seq<Product>)
    requires SameButStock(a, b) && ProductsValid(a)
    ensures ProductsValid(b)
  {
    forall i, j | 0 <= i < j < |b| ensures b[i].id != b[j].id && b[i].productSlug != b[j].productSlug {
      assert b[i].id == a[i].id && b[j].id == a[j].id;
      assert b[i].productSlug == a[i].productSlug && b[j].productSlug == a[j].productSlug;
    }
  }

  class Db {
    var stores: seq<Store>
    var products: seq<Product>
    var reviews: seq<Review>
    var orders: seq<Order>

    ghost predicate Valid()
      reads this
    {
      StoresValid(stores) && ProductsValid(products) && ReviewsValid(reviews) && OrdersValid(orders)
    }

    /** An empty database. */
    constructor ()
      ensures Valid()
      ensures stores == [] && products == [] && reviews == [] && orders == []
    {
      stores, products, reviews, orders := [], [], [], [];
    }
  }
}
