/**
 * The store routes: the seller's store list, create, the seller-info sync
 * and the delete that takes the store's products with it.
 */
module StoreRoutes {
  import opened Wrappers
  import opened Collections
  import opened ProductModel
  import opened StoreModel
  import opened Database
  import opened RatingAggregate
  import opened Slugs

  // ---------------------------------------------------------------------------
  // GET /seller/:sellerId

  datatype SellerStores = SellerStores(status: int, stores: seq<Store>)

  /** GET /seller/:sellerId: the seller's stores, or 404 when there are none. */
  method StoresOfSeller(db: Db, sellerId: ObjectId) returns (r: SellerStores)
    ensures r.status == 404 <==> forall j :: 0 <= j < |db.stores| ==> db.stores[j].sellerId != sellerId
    ensures r.status != 404 ==> r.status == 200
    ensures forall i :: 0 <= i < |r.stores| ==> r.stores[i] in db.stores && r.stores[i].sellerId == sellerId
    ensures r.status == 200 ==> forall j :: 0 <= j < |db.stores| && db.stores[j].sellerId == sellerId ==> db.stores[j] in r.stores
    ensures r.status == 200 ==> forall s :: multiset(r.stores)[s] == if s.sellerId == sellerId then multiset(db.stores)[s] else 0
  {
    var stores := Filter(db.stores, (s: Store) => s.sellerId == sellerId);
    FilterCounts(db.stores, (s: Store) => s.sellerId == sellerId);
    if |stores| > 0 {
      assert stores[0] in db.stores && stores[0].sellerId == sellerId;
      r := SellerStores(200, stores);
    } else {
      forall j | 0 <= j < |db.stores| ensures db.stores[j].sellerId != sellerId {
        var store := db.stores[j];
        assert store.sellerId == sellerId ==> store in stores;
      }
      r := SellerStores(404, []);
    }
  }

  // ---------------------------------------------------------------------------
  // POST /create

  /** The body of POST /create. */
  datatype StoreRequest = StoreRequest(
    sellerId: ObjectId,
    sellerFirstName: string,
    sellerLastName: string,
    sellerPictureURL: string,
    storeName: string,
    storeDescription: Option<string>,
    storePhoneNumber: string,
    storeAddress: StoreAddress,
    storeImageURL: Option<string>)

  /** The store `new Store({...})` builds; the image URL defaults to "". */
  function NewStore(id: ObjectId, slug: string, req: StoreRequest): (s: Store)
    ensures s.storeSlug == slug && s.id == id
    ensures req.storeImageURL.None? ==> s.storeImageURL == ""
  {
    Store(id, req.sellerId, req.sellerFirstName, req.sellerLastName, req.sellerPictureURL, slug,
          req.storeName, req.storeDescription, req.storePhoneNumber, req.storeAddress,
          if req.storeImageURL.Some? then req.storeImageURL.value else "")
  }

  predicate StoreSlugTaken(ss: seq<Store>, slug: string) {
    exists i :: 0 <= i < |ss| && ss[i].storeSlug == slug
  }

  /**
   * POST /create. `transformedName` and `suffix` are what `transformName`
   * and `generateRandomString` return; `newId` is the new store's id. The
   * unique slug index refuses a taken slug, which the catch block answers
   * with 500.
   */
  method CreateStore(db: Db, req: StoreRequest, transformedName: string, suffix: string, newId: ObjectId)
    returns (status: int)
    requires db.Valid()
    requires forall i :: 0 <= i < |db.stores| ==> db.stores[i].id != newId
    modifies db`stores
    ensures db.Valid()
    ensures status == 500 <==> StoreSlugTaken(old(db.stores), ComposeSlug(transformedName, suffix))
    ensures status == 500 ==> db.stores == old(db.stores)
    ensures status != 500 ==>
              && status == 201
              && db.stores == old(db.stores) + [NewStore(newId, ComposeSlug(transformedName, suffix), req)]
  {
    var storeSlug := ComposeSlug(transformedName, suffix);
    var taken := FirstIndex(db.stores, (s: Store) => s.storeSlug == storeSlug);
    if taken.Some? {
      status := 500;
      return;
    }
    ghost var before := db.stores;
    db.stores := db.stores + [NewStore(newId, storeSlug, req)];
    assert StoresValid(db.stores) by {
      forall i, j | 0 <= i < j < |db.stores|
        ensures db.stores[i].id != db.stores[j].id && db.stores[i].storeSlug != db.stores[j].storeSlug
      {
        if j == |before| {
          assert db.stores[i] == before[i];
        }
      }
    }
    status := 201;
  }

  // ---------------------------------------------------------------------------
  // PUT /update-seller

  /** The seller fields PUT /update-seller may carry. */
  datatype SellerInfo = SellerInfo(sellerFirstName: Option<string>, sellerLastName: Option<string>, sellerPictureURL: Option<string>)

  function ApplySellerInfo(s: Store, info: SellerInfo): Store {
    s.(sellerFirstName := Pick(info.sellerFirstName, s.sellerFirstName),
       sellerLastName := Pick(info.sellerLastName, s.sellerLastName),
       sellerPictureURL := Pick(info.sellerPictureURL, s.sellerPictureURL))
  }

  /**
   * PUT /update-seller: `updateMany({ sellerId }, { $set })`. The update
   * result is always an object, so the reply is always 200.
   */
  method UpdateSeller(db: Db, sellerId: ObjectId, info: SellerInfo) returns (status: int)
    requires db.Valid()
    modifies db`stores
    ensures db.Valid()
    ensures |db.stores| == |old(db.stores)|
    ensures forall i :: 0 <= i < |db.stores| && old(db.stores)[i].sellerId == sellerId ==>
              db.stores[i] == ApplySellerInfo(old(db.stores)[i], info)
    ensures forall i :: 0 <= i < |db.stores| && old(db.stores)[i].sellerId != sellerId ==>
              db.stores[i] == old(db.stores)[i]
    ensures status == 200
  {
    ghost var before := db.stores;
    db.stores := UpdateWhere(db.stores, (s: Store) => s.sellerId == sellerId, (s: Store) => ApplySellerInfo(s, info));
    assert StoresValid(db.stores) by {
      forall i, j | 0 <= i < j < |db.stores|
        ensures db.stores[i].id != db.stores[j].id && db.stores[i].storeSlug != db.stores[j].storeSlug
      {
        assert db.stores[i].id == before[i].id && db.stores[j].id == before[j].id;
        assert db.stores[i].storeSlug == before[i].storeSlug && db.stores[j].storeSlug == before[j].storeSlug;
      }
    }
    status := 200;
  }

  // ---------------------------------------------------------------------------
  // DELETE /delete/:storeId

  /**
   * DELETE /delete/:storeId: the store goes first, then every product of it.
   * The products' reviews stay behind.
   */
  method DeleteStore(db: Db, storeId: ObjectId) returns (status: int)
    requires db.Valid()
    modifies db`stores, db`products
    ensures db.Valid()
    ensures status == 404 <==> StoreIndex(old(db.stores), storeId).None?
    ensures status == 404 ==> db.stores == old(db.stores) && db.products == old(db.products)
    ensures status != 404 ==>
              && status == 200
              && db.stores == RemoveAt(old(db.stores), StoreIndex(old(db.stores), storeId).value)
              && db.products == Filter(old(db.products), (p: Product) => p.storeId != storeId)
    ensures status != 404 ==>
              && (forall i :: 0 <= i < |db.products| ==> db.products[i].storeId != storeId)
              && (forall i :: 0 <= i < |old(db.products)| && old(db.products)[i].storeId != storeId ==>
                    old(db.products)[i] in db.products)
    ensures Consistent(old(db.products), db.reviews) ==> Consistent(db.products, db.reviews)
  {
    var found := StoreIndex(db.stores, storeId);
    if found.None? {
      status := 404;
      return;
    }
    RemoveAtKeepsUniqueKeys(db.stores, found.value, (s: Store) => s.id);
    RemoveAtKeepsUniqueKeys(db.stores, found.value, (s: Store) => s.storeSlug);
    db.stores := RemoveAt(db.stores, found.value);
    assert UniqueKeys(db.stores, (s: Store) => s.id);
    assert UniqueKeys(db.stores, (s: Store) => s.storeSlug);
    ghost var consistent := Consistent(db.products, db.reviews);
    if consistent {
      ConsistentFilterProducts(db.products, db.reviews, (p: Product) => p.storeId != storeId);
    }
    FilterKeepsUniqueKeys(db.products, (p: Product) => p.storeId != storeId, (p: Product) => p.id);
    FilterKeepsUniqueKeys(db.products, (p: Product) => p.storeId != storeId, (p: Product) => p.productSlug);
    db.products := Filter(db.products, (p: Product) => p.storeId != storeId);
    assert UniqueKeys(db.products, (p: Product) => p.id);
    assert UniqueKeys(db.products, (p: Product) => p.productSlug);
    status := 200;
  }
}
