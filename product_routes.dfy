/**
 * The product routes: the two store listings, create, update and the
 * delete that takes the product's reviews with it.
 */
module ProductRoutes {
  import opened Wrappers
  import opened Collections
  import opened Js
  import opened ProductModel
  import opened ReviewModel
  import opened StoreModel
  import opened Database
  import opened RatingAggregate
  import opened Slugs

  // ---------------------------------------------------------------------------
  // GET /:storeId/all and GET /store-slug/:storeSlug

  /** The filter handed to `Product.find`: the store, and `isFeatured` when it was added. */
  datatype ProductQuery = ProductQuery(storeId: ObjectId, isFeatured: Option<bool>)

  predicate Matches(p: Product, query: ProductQuery) {
    p.storeId == query.storeId && (query.isFeatured.Some? ==> p.isFeatured == query.isFeatured.value)
  }

  /** What a listing promises: the store's products, only the featured ones when `featured` is truthy. */
  predicate Listed(p: Product, storeId: ObjectId, featured: JsValue) {
    p.storeId == storeId && (Truthy(featured) ==> p.isFeatured)
  }

  /** The query of lines 17-21, with `isFeatured` added when the body's `featured` is truthy. */
  method BuildQuery(storeId: ObjectId, featured: JsValue) returns (query: ProductQuery)
    ensures forall p :: Matches(p, query) <==> Listed(p, storeId, featured)
  {
    query := ProductQuery(storeId, None);
    if Truthy(featured) {
      query := query.(isFeatured := Some(true));
    }
  }

  /** GET /:storeId/all. */
  method ListByStore(db: Db, storeId: ObjectId, featured: JsValue) returns (result: seq<Product>)
    ensures forall i :: 0 <= i < |result| ==> result[i] in db.products && Listed(result[i], storeId, featured)
    ensures forall i :: 0 <= i < |db.products| && Listed(db.products[i], storeId, featured) ==> db.products[i] in result
    ensures forall x :: multiset(result)[x] == if Listed(x, storeId, featured) then multiset(db.products)[x] else 0
    ensures result == Filter(db.products, (p: Product) => Listed(p, storeId, featured))
  {
    var query := BuildQuery(storeId, featured);
    result := Filter(db.products, (p: Product) => Matches(p, query));
    FilterSame(db.products, (p: Product) => Matches(p, query), (p: Product) => Listed(p, storeId, featured));
    FilterCounts(db.products, (p: Product) => Listed(p, storeId, featured));
  }

  /**
   * Any non-empty string is truthy, so `"false"` or `"0"` still asks for the
   * featured products only; only `""` lists them all.
   */
  lemma StringFeaturedSelects(p: Product, storeId: ObjectId, featured: string)
    ensures featured != "" ==> (Listed(p, storeId, Str(featured)) <==> p.storeId == storeId && p.isFeatured)
    ensures featured == "" ==> (Listed(p, storeId, Str(featured)) <==> p.storeId == storeId)
  {
  }

  datatype StoreListing = StoreListing(status: int, storeName: string, products: seq<Product>)

  /** GET /store-slug/:storeSlug: 404 without a store of that slug, else its name and listing. */
  method ListByStoreSlug(db: Db, storeSlug: string, featured: JsValue) returns (r: StoreListing)
    ensures r.status == 404 <==> forall j :: 0 <= j < |db.stores| ==> db.stores[j].storeSlug != storeSlug
    ensures r.status == 404 ==> r.products == []
    ensures r.status != 404 ==>
              && r.status == 200
              && exists j :: && 0 <= j < |db.stores| && db.stores[j].storeSlug == storeSlug
                             && r.storeName == db.stores[j].storeName
                             && (forall i :: 0 <= i < |r.products| ==>
                                   r.products[i] in db.products && Listed(r.products[i], db.stores[j].id, featured))
                             && (forall i :: 0 <= i < |db.products| && Listed(db.products[i], db.stores[j].id, featured) ==>
                                   db.products[i] in r.products)
                             && (forall x :: multiset(r.products)[x] ==
                                   if Listed(x, db.stores[j].id, featured) then multiset(db.products)[x] else 0)
                             && var storeId := db.stores[j].id;
                                r.products == Filter(db.products, (p: Product) => Listed(p, storeId, featured))
  {
    var store := FirstIndex(db.stores, (s: Store) => s.storeSlug == storeSlug);
    if store.None? {
      return StoreListing(404, "", []);
    }
    var all := ListByStore(db, db.stores[store.value].id, featured);
    r := StoreListing(200, db.stores[store.value].storeName, all);
  }

  // ---------------------------------------------------------------------------
  // POST /create

  /** The body of POST /create. */
  datatype ProductRequest = ProductRequest(
    storeId: ObjectId,
    productName: string,
    productDescription: string,
    productPrice: int,
    productBrand: Option<string>,
    productCategory: string,
    stockAmount: int,
    leadImageURL: Option<string>,
    imagesCollectionURL: Option<seq<string>>,
    isFeatured: Option<bool>)

  predicate ProductSlugTaken(ps: seq<Product>, slug: string) {
    exists i :: 0 <= i < |ps| && ps[i].productSlug == slug
  }

  /**
   * POST /create. `transformedName` and `suffix` are what `transformName`
   * and `generateRandomString` return; `newId` is the new product's id,
   * which no product and no review refers to yet. The unique slug index
   * refuses a taken slug, which the catch block answers with 500.
   */
  method CreateProduct(db: Db, req: ProductRequest, transformedName: string, suffix: string, newId: ObjectId)
    returns (status: int)
    requires db.Valid()
    requires forall i :: 0 <= i < |db.products| ==> db.products[i].id != newId
    requires forall i :: 0 <= i < |db.reviews| ==> db.reviews[i].productId != newId
    modifies db`products
    ensures db.Valid()
    ensures status == 500 <==> ProductSlugTaken(old(db.products), ComposeSlug(transformedName, suffix))
    ensures status == 500 ==> db.products == old(db.products)
    ensures status != 500 ==>
              && status == 201
              && db.products == old(db.products) + [NewProduct(newId, req.storeId, ComposeSlug(transformedName, suffix),
                   req.productName, req.productDescription, req.productPrice, req.productBrand, req.productCategory,
                   req.stockAmount, req.leadImageURL, req.imagesCollectionURL, req.isFeatured)]
    ensures Consistent(old(db.products), db.reviews) ==> Consistent(db.products, db.reviews)
  {
    var productSlug := ComposeSlug(transformedName, suffix);
    var taken := FirstIndex(db.products, (p: Product) => p.productSlug == productSlug);
    if taken.Some? {
      status := 500;
      return;
    }
    var product := NewProduct(newId, req.storeId, productSlug, req.productName, req.productDescription,
                              req.productPrice, req.productBrand, req.productCategory, req.stockAmount,
                              req.leadImageURL, req.imagesCollectionURL, req.isFeatured);
    CountAbsent(db.reviews, newId);
    ghost var before := db.products;
    db.products := db.products + [product];
    assert ProductsValid(db.products) by {
      forall i, j | 0 <= i < j < |db.products|
        ensures db.products[i].id != db.products[j].id && db.products[i].productSlug != db.products[j].productSlug
      {
        if j == |before| {
          assert db.products[i] == before[i];
        }
      }
    }
    status := 201;
  }

  // ---------------------------------------------------------------------------
  // PUT /update/:productId

  /** Another product than the one of `productId` already has `slug`. */
  predicate SlugTakenByOther(ps: seq<Product>, productId: ObjectId, slug: string) {
    exists j :: 0 <= j < |ps| && ps[j].id != productId && ps[j].productSlug == slug
  }

  /**
   * PUT /update/:productId with the fields of `patch`: 404 when there is no
   * such product; 500 (the unique slug index refuses the write, and the
   * catch block answers) when the patch gives a slug another product has;
   * otherwise the patch is applied.
   */
  method UpdateProduct(db: Db, productId: ObjectId, patch: ProductPatch) returns (status: int)
    requires db.Valid()
    modifies db`products
    ensures db.Valid()
    ensures status == 404 <==> ProductIndex(old(db.products), productId).None?
    ensures status == 500 <==>
              && ProductIndex(old(db.products), productId).Some?
              && patch.productSlug.Some? && SlugTakenByOther(old(db.products), productId, patch.productSlug.value)
    ensures status == 404 || status == 500 ==> db.products == old(db.products)
    ensures status != 404 && status != 500 ==>
              && status == 200
              && var i := ProductIndex(old(db.products), productId).value;
                 db.products == old(db.products)[i := ApplyProductPatch(old(db.products)[i], patch)]
    ensures Consistent(old(db.products), db.reviews) && patch.reviewsAmount.None? && patch.averageRating.None? ==>
              Consistent(db.products, db.reviews)
  {
    var found := ProductIndex(db.products, productId);
    if found.None? {
      status := 404;
      return;
    }
    var k := found.value;
    if patch.productSlug.Some? {
      var clash := FirstIndex(db.products, (p: Product) => p.id != productId && p.productSlug == patch.productSlug.value);
      if clash.Some? {
        status := 500;
        return;
      }
    }
    ghost var before := db.products;
    db.products := db.products[k := ApplyProductPatch(db.products[k], patch)];
    assert ProductsValid(db.products) by {
      forall i, j | 0 <= i < j < |db.products|
        ensures db.products[i].id != db.products[j].id && db.products[i].productSlug != db.products[j].productSlug
      {
        assert db.products[i].id == before[i].id && db.products[j].id == before[j].id;
        if i != k && j != k {
          assert db.products[i] == before[i] && db.products[j] == before[j];
        } else if patch.productSlug.Some? {
          var other := if i == k then j else i;
          assert before[other].id != productId;
        }
      }
    }
    if patch.reviewsAmount.None? && patch.averageRating.None? {
      assert forall i :: 0 <= i < |db.products| ==>
        (db.products[i].id == before[i].id && db.products[i].reviewsAmount == before[i].reviewsAmount
         && db.products[i].averageRating == before[i].averageRating);
    }
    status := 200;
  }

  /** A patch that sets `reviewsAmount` to anything but the live count leaves the product inconsistent. */
  lemma PatchedCounterBreaksConsistency(p: Product, rs: seq<Review>, patch: ProductPatch)
    requires patch.reviewsAmount.Some? && patch.reviewsAmount.value != ReviewCount(rs, p.id)
    ensures !CountersMatch(ApplyProductPatch(p, patch), rs)
  {
  }

  // ---------------------------------------------------------------------------
  // DELETE /delete/:productId

  /** `Product.findByIdAndDelete(productId)`: the product with that id is gone, if there was one. */
  function WithoutProduct(ps: seq<Product>, productId: ObjectId): seq<Product> {
    match ProductIndex(ps, productId)
    case None => ps
    case Some(i) => RemoveAt(ps, i)
  }

  /** With unique ids nothing of that id is left, and the other products all are. */
  lemma WithoutProductEffect(ps: seq<Product>, productId: ObjectId)
    requires ProductsValid(ps)
    ensures ProductsValid(WithoutProduct(ps, productId))
    ensures forall i :: 0 <= i < |WithoutProduct(ps, productId)| ==>
              WithoutProduct(ps, productId)[i].id != productId && WithoutProduct(ps, productId)[i] in ps
    ensures forall i :: 0 <= i < |ps| && ps[i].id != productId ==> ps[i] in WithoutProduct(ps, productId)
  {
    var r := WithoutProduct(ps, productId);
    match ProductIndex(ps, productId)
    case None =>
    case Some(k) =>
      RemoveAtKeepsUniqueKeys(ps, k, (p: Product) => p.id);
      RemoveAtKeepsUniqueKeys(ps, k, (p: Product) => p.productSlug);
      assert UniqueKeys(r, (p: Product) => p.id);
      assert UniqueKeys(r, (p: Product) => p.productSlug);
      forall i | 0 <= i < |r| ensures r[i].id != productId && r[i] in ps {
        if i >= k {
          assert r[i] == ps[i + 1];
        } else {
          assert r[i] == ps[i];
        }
      }
      forall i | 0 <= i < |ps| && ps[i].id != productId ensures ps[i] in r {
        if i < k {
          assert r[i] == ps[i];
        } else {
          assert i != k;
          assert r[i - 1] == ps[i];
        }
      }
  }

  /** Deleting a product with its reviews leaves every remaining product consistent. */
  lemma DeleteProductKeepsConsistent(ps: seq<Product>, rs: seq<Review>, productId: ObjectId)
    requires ProductsValid(ps) && Consistent(ps, rs)
    ensures Consistent(WithoutProduct(ps, productId), Filter(rs, (r: Review) => r.productId != productId))
  {
    var after := WithoutProduct(ps, productId);
    var kept := Filter(rs, (r: Review) => r.productId != productId);
    WithoutProductEffect(ps, productId);
    forall i | 0 <= i < |after| ensures CountersMatch(after[i], kept) {
      var q := after[i].id;
      CountFilterOthers(rs, productId, q);
      assert CountersMatch(after[i], rs);
      assert CalculateAverageRating(kept, q) == CalculateAverageRating(rs, q);
    }
  }

  /** DELETE /delete/:productId: its reviews go first, then the product; the reply is 200 either way. */
  method DeleteProduct(db: Db, productId: ObjectId) returns (status: int)
    requires db.Valid()
    modifies db`products, db`reviews
    ensures db.Valid()
    ensures db.reviews == Filter(old(db.reviews), (r: Review) => r.productId != productId)
    ensures db.products == WithoutProduct(old(db.products), productId)
    ensures status == 200
    ensures Consistent(old(db.products), old(db.reviews)) ==> Consistent(db.products, db.reviews)
  {
    ghost var consistent := Consistent(db.products, db.reviews);
    if consistent {
      DeleteProductKeepsConsistent(db.products, db.reviews, productId);
    }
    FilterKeepsUniqueKeys(db.reviews, (r: Review) => r.productId != productId, (r: Review) => r.id);
    db.reviews := Filter(db.reviews, (r: Review) => r.productId != productId);
    assert UniqueKeys(db.reviews, (r: Review) => r.id);
    WithoutProductEffect(db.products, productId);
    var found := ProductIndex(db.products, productId);
    if found.Some? {
      db.products := RemoveAt(db.products, found.value);
    }
    status := 200;
  }
}
