/**
 * The order routes: POST /create (stock deduction, then insertion), PUT
 * /update/:orderId (stock restoration on cancel or rejection, then the
 * update) and GET /store/:storeId.
 */
module OrderRoutes {
  import opened Wrappers
  import opened Collections
  import opened OrderModel
  import opened ProductModel
  import opened StoreModel
  import opened Database
  import opened OrderLedger
  import opened ReviewModel
  import opened RatingAggregate

  /** The body of POST /create. */
  datatype OrderRequest = OrderRequest(
    userId: ObjectId,
    storeId: ObjectId,
    storeSlug: string,
    storeName: string,
    storeImageURL: string,
    orderItems: seq<OrderItem>,
    shippingAddress: ShippingAddress,
    itemsPrice: int,
    shippingPrice: int,
    totalPrice: int,
    paymentMethod: string)

  /** `new Order({...})`: the status is fixed, everything else is copied from the request. */
  function NewOrder(id: ObjectId, req: OrderRequest): (o: Order)
    ensures ParseStatus(o.orderStatus) == Some(AwaitingSellerApproval)
    ensures o.id == id && o.userId == req.userId && o.storeId == req.storeId && o.storeSlug == req.storeSlug
    ensures o.orderItems == req.orderItems && o.shippingAddress == req.shippingAddress
    ensures o.itemsPrice == req.itemsPrice && o.shippingPrice == req.shippingPrice && o.totalPrice == req.totalPrice
    ensures o.paidAt.None? && o.deliveredAt.None?
  {
    Order(id, req.userId, req.storeId, req.storeSlug, req.storeName, req.storeImageURL,
          Label(AwaitingSellerApproval), req.orderItems, req.shippingAddress,
          req.itemsPrice, req.shippingPrice, req.totalPrice, req.paymentMethod, None, None)
  }

  /** Whether the unique index on the orders' `storeSlug` already holds `slug`. */
  predicate StoreSlugTaken(orders: seq<Order>, slug: string) {
    exists k :: 0 <= k < |orders| && orders[k].storeSlug == slug
  }

  /** The product and order tables after a handler, and its reply status. */
  datatype Outcome = Outcome(products: seq<Product>, orders: seq<Order>, status: int)

  /**
   * POST /create as a function of the tables before it. The deduction loop
   * runs first; if it threw, nothing more happens; otherwise the order is
   * saved unless the unique `storeSlug` index refuses it. The reply is the
   * first status sent.
   */
  function CreateOrderSpec(products: seq<Product>, orders: seq<Order>, req: OrderRequest, newId: ObjectId): Outcome {
    var ledger := Reserve(products, DistinctIds(req.orderItems), req.orderItems);
    if ledger.aborted then Outcome(ledger.products, orders, Reply(ledger.sent, 500))
    else if StoreSlugTaken(orders, req.storeSlug) then Outcome(ledger.products, orders, Reply(ledger.sent, 500))
    else Outcome(ledger.products, orders + [NewOrder(newId, req)], Reply(ledger.sent, 201))
  }

  /**
   * PUT /update/:orderId as a function of the tables before it. For
   * 'Cancelled' and 'Rejected by Seller' the stored lines go back to stock
   * first; then the update is applied to the order, if it exists.
   */
  function UpdateOrderSpec(products: seq<Product>, orders: seq<Order>, orderId: ObjectId, patch: OrderPatch): Outcome {
    match OrderIndex(orders, orderId)
    case None => Outcome(products, orders, 404)
    case Some(k) =>
      if patch.orderStatus.Some? && ReleasesStock(patch.orderStatus.value) then
        var ledger := Restore(products, orders[k].orderItems);
        if ledger.aborted then Outcome(ledger.products, orders, Reply(ledger.sent, 500))
        else Outcome(ledger.products, orders[k := ApplyOrderPatch(orders[k], patch)], Reply(ledger.sent, 200))
      else Outcome(products, orders[k := ApplyOrderPatch(orders[k], patch)], 200)
  }

  // ---------------------------------------------------------------------------
  // Properties of the specifications

  /**
   * Create, in full: the reply is the first message of the deduction loop
   * (404 for a missing product, 400 for one short of stock), else 201, or
   * 500 when the order could not be saved; the order is saved exactly when
   * the loop sent at most one message and the store slug is free; and in that
   * case every product of the order has lost exactly its total, even one that
   * was short of stock.
   */
  lemma CreateOrderEffect(products: seq<Product>, orders: seq<Order>, req: OrderRequest, newId: ObjectId)
    requires UniqueProductIds(products)
    ensures var out := CreateOrderSpec(products, orders, req, newId);
            var ids := DistinctIds(req.orderItems);
            var msgs := Messages(products, ids, req.orderItems);
            var saved := |msgs| <= 1 && !StoreSlugTaken(orders, req.storeSlug);
            && SameButStock(products, out.products)
            && out.orders == (if saved then orders + [NewOrder(newId, req)] else orders)
            && out.status == (if msgs != [] then msgs[0] else if saved then 201 else 500)
            && (|msgs| <= 1 ==> forall i :: 0 <= i < |products| ==>
                  out.products[i].stockAmount == products[i].stockAmount - Share(ids, req.orderItems, products[i].id))
  {
    ReserveEffect(products, DistinctIds(req.orderItems), req.orderItems);
  }

  /** Every key of the map resolves to a product with enough stock. */
  predicate AllInStock(products: seq<Product>, items: seq<OrderItem>) {
    forall id :: id in DistinctIds(items) ==> ReserveMessage(products, id, QuantityOf(items, id)).None?
  }

  lemma {:induction false} NoMessages(products: seq<Product>, ids: seq<ObjectId>, items: seq<OrderItem>)
    requires forall id :: id in ids ==> ReserveMessage(products, id, QuantityOf(items, id)).None?
    ensures Messages(products, ids, items) == []
  {
    if ids != [] {
      assert Last(ids) in ids;
      assert forall id :: id in Init(ids) ==> id in ids;
      NoMessages(products, Init(ids), items);
    }
  }

  /**
   * The order stays within the stock available: the reply is 201, or 500 if
   * the store slug is taken, and no product of the order goes below zero.
   */
  lemma HappyCreate(products: seq<Product>, orders: seq<Order>, req: OrderRequest, newId: ObjectId)
    requires UniqueProductIds(products) && AllInStock(products, req.orderItems)
    ensures var out := CreateOrderSpec(products, orders, req, newId);
            var ids := DistinctIds(req.orderItems);
            && out.status == (if StoreSlugTaken(orders, req.storeSlug) then 500 else 201)
            && |out.products| == |products|
            && (forall i :: 0 <= i < |products| ==>
                 out.products[i].stockAmount == products[i].stockAmount - Share(ids, req.orderItems, products[i].id))
            && (forall i :: 0 <= i < |products| && products[i].id in ids ==> out.products[i].stockAmount >= 0)
  {
    var ids := DistinctIds(req.orderItems);
    NoMessages(products, ids, req.orderItems);
    CreateOrderEffect(products, orders, req, newId);
    forall i | 0 <= i < |products| && products[i].id in ids
      ensures products[i].stockAmount >= QuantityOf(req.orderItems, products[i].id)
    {
      InStockAt(products, req.orderItems, i);
    }
  }

  lemma InStockAt(products: seq<Product>, items: seq<OrderItem>, i: nat)
    requires UniqueProductIds(products) && AllInStock(products, items)
    requires i < |products| && products[i].id in DistinctIds(items)
    ensures products[i].stockAmount >= QuantityOf(items, products[i].id)
  {
    var id := products[i].id;
    assert ReserveMessage(products, id, QuantityOf(items, id)).None?;
  }

  /**
   * A different store's order with the same `storeSlug` is not saved, yet the
   * deduction has already happened and is not undone.
   */
  lemma DuplicateStoreSlugKeepsDeduction(products: seq<Product>, orders: seq<Order>, req: OrderRequest, newId: ObjectId)
    requires UniqueProductIds(products) && StoreSlugTaken(orders, req.storeSlug)
    requires AllInStock(products, req.orderItems)
    ensures var out := CreateOrderSpec(products, orders, req, newId);
            && out.orders == orders && out.status == 500
            && out.products == Reserve(products, DistinctIds(req.orderItems), req.orderItems).products
  {
    NoMessages(products, DistinctIds(req.orderItems), req.orderItems);
    ReserveEffect(products, DistinctIds(req.orderItems), req.orderItems);
  }

  /**
   * Update, in full: a missing order gives 404 and changes nothing; a status
   * other than 'Cancelled' or 'Rejected by Seller' leaves all stock alone; for
   * those two, if every line's product exists, each product gets back its
   * total and the reply is 200.
   */
  lemma UpdateOrderEffect(products: seq<Product>, orders: seq<Order>, orderId: ObjectId, patch: OrderPatch)
    requires UniqueProductIds(products)
    ensures var out := UpdateOrderSpec(products, orders, orderId, patch);
            && SameButStock(products, out.products)
            && (OrderIndex(orders, orderId).None? ==> out == Outcome(products, orders, 404))
            && (!(patch.orderStatus.Some? && ReleasesStock(patch.orderStatus.value)) ==> out.products == products)
            && (OrderIndex(orders, orderId).Some? && patch.orderStatus.Some? && ReleasesStock(patch.orderStatus.value)
                && MissingCount(products, orders[OrderIndex(orders, orderId).value].orderItems) == 0 ==>
                  var o := orders[OrderIndex(orders, orderId).value];
                  && out.status == 200
                  && out.orders == orders[OrderIndex(orders, orderId).value := ApplyOrderPatch(o, patch)]
                  && forall i :: 0 <= i < |products| ==>
                       out.products[i].stockAmount == products[i].stockAmount + QuantityOf(o.orderItems, products[i].id))
  {
    match OrderIndex(orders, orderId)
    case None =>
    case Some(k) => RestoreEffect(products, orders[k].orderItems);
  }

  /** Create touches stock counts only, so the products' review counters stay consistent. */
  lemma CreateKeepsCounters(products: seq<Product>, orders: seq<Order>, req: OrderRequest, newId: ObjectId,
                            reviews: seq<Review>)
    requires UniqueProductIds(products) && Consistent(products, reviews)
    ensures Consistent(CreateOrderSpec(products, orders, req, newId).products, reviews)
  {
    CreateOrderEffect(products, orders, req, newId);
    ConsistentSameButStock(products, CreateOrderSpec(products, orders, req, newId).products, reviews);
  }

  /** So does update, restoration included. */
  lemma UpdateKeepsCounters(products: seq<Product>, orders: seq<Order>, orderId: ObjectId, patch: OrderPatch,
                            reviews: seq<Review>)
    requires UniqueProductIds(products) && Consistent(products, reviews)
    ensures Consistent(UpdateOrderSpec(products, orders, orderId, patch).products, reviews)
  {
    UpdateOrderEffect(products, orders, orderId, patch);
    ConsistentSameButStock(products, UpdateOrderSpec(products, orders, orderId, patch).products, reviews);
  }

  /** Every line of the order names a product in the table. */
  predicate AllProductsPresent(products: seq<Product>, items: seq<OrderItem>) {
    forall k :: 0 <= k < |items| ==> ProductIndex(products, items[k].productId).Some?
  }

  lemma {:induction false} NoneMissing(products: seq<Product>, items: seq<OrderItem>)
    requires AllProductsPresent(products, items)
    ensures MissingCount(products, items) == 0
  {
    if items != [] {
      assert forall k :: 0 <= k < |items| - 1 ==> Init(items)[k] == items[k];
      NoneMissing(products, Init(items));
    }
  }

  /**
   * Create followed by cancellation (or rejection) of the same order gives
   * every product its stock back, when all the order's products exist and the
   * order was saved.
   */
  lemma CreateThenCancel(products: seq<Product>, orders: seq<Order>, req: OrderRequest, newId: ObjectId, patch: OrderPatch)
    requires UniqueProductIds(products)
    requires forall k :: 0 <= k < |orders| ==> orders[k].id != newId
    requires AllProductsPresent(products, req.orderItems)
    requires |Messages(products, DistinctIds(req.orderItems), req.orderItems)| <= 1
    requires !StoreSlugTaken(orders, req.storeSlug)
    requires patch.orderStatus.Some? && ReleasesStock(patch.orderStatus.value)
    ensures var created := CreateOrderSpec(products, orders, req, newId);
            var cancelled := UpdateOrderSpec(created.products, created.orders, newId, patch);
            cancelled.products == products && cancelled.status == 200
  {
    var items := req.orderItems;
    var mid := Reserve(products, DistinctIds(items), items).products;
    CreateSaves(products, orders, req, newId);
    AppendedOrderIndex(orders, NewOrder(newId, req));
    CancelGivesBack(products, mid, orders + [NewOrder(newId, req)], newId, |orders|, patch, items);
  }

  /** The order just appended is the one its id finds, given the id was fresh. */
  lemma AppendedOrderIndex(orders: seq<Order>, order: Order)
    requires forall k :: 0 <= k < |orders| ==> orders[k].id != order.id
    ensures OrderIndex(orders + [order], order.id) == Some(|orders|)
    ensures (orders + [order])[|orders|] == order
  {
    var os := orders + [order];
    assert os[|orders|].id == order.id;
    assert FirstIndex(os, (o: Order) => o.id == order.id) == OrderIndex(os, order.id);
  }

  /** Cancelling the order at `k`, after its lines were deducted from `products`, gives `products` back. */
  lemma CancelGivesBack(products: seq<Product>, mid: seq<Product>, orders: seq<Order>, orderId: ObjectId, k: nat,
                        patch: OrderPatch, items: seq<OrderItem>)
    requires OrderIndex(orders, orderId) == Some(k) && orders[k].orderItems == items
    requires patch.orderStatus.Some? && ReleasesStock(patch.orderStatus.value)
    requires AllProductsPresent(products, items)
    requires SameButStock(products, mid) && UniqueProductIds(mid)
    requires forall i :: 0 <= i < |products| ==>
               mid[i].stockAmount == products[i].stockAmount - Share(DistinctIds(items), items, products[i].id)
    ensures UpdateOrderSpec(mid, orders, orderId, patch).products == products
    ensures UpdateOrderSpec(mid, orders, orderId, patch).status == 200
  {
    RestoreAllPresent(products, mid, items);
    CancelUnfolds(mid, orders, orderId, k, patch);
    StockRoundTrip(products, mid, Restore(mid, items).products, items);
  }

  /** Restoring lines whose products all exist: nothing is sent and every line goes back. */
  lemma RestoreAllPresent(products: seq<Product>, mid: seq<Product>, items: seq<OrderItem>)
    requires AllProductsPresent(products, items) && SameButStock(products, mid) && UniqueProductIds(mid)
    ensures var restored := Restore(mid, items);
            && !restored.aborted && restored.sent.None? && SameButStock(mid, restored.products)
            && forall i :: 0 <= i < |mid| ==>
                 restored.products[i].stockAmount == mid[i].stockAmount + QuantityOf(items, mid[i].id)
  {
    forall k | 0 <= k < |items| ensures ProductIndex(mid, items[k].productId).Some? {
      ProductIndexOnIds(products, mid, items[k].productId);
    }
    NoneMissing(mid, items);
    RestoreEffect(mid, items);
  }

  /** The saving branch of create, with the deduction's effect on stock. */
  lemma CreateSaves(products: seq<Product>, orders: seq<Order>, req: OrderRequest, newId: ObjectId)
    requires UniqueProductIds(products)
    requires |Messages(products, DistinctIds(req.orderItems), req.orderItems)| <= 1
    requires !StoreSlugTaken(orders, req.storeSlug)
    ensures var mid := Reserve(products, DistinctIds(req.orderItems), req.orderItems).products;
            && CreateOrderSpec(products, orders, req, newId).products == mid
            && CreateOrderSpec(products, orders, req, newId).orders == orders + [NewOrder(newId, req)]
            && SameButStock(products, mid) && UniqueProductIds(mid)
            && forall i :: 0 <= i < |products| ==>
                 mid[i].stockAmount == products[i].stockAmount - Share(DistinctIds(req.orderItems), req.orderItems, products[i].id)
  {
    var mid := Reserve(products, DistinctIds(req.orderItems), req.orderItems).products;
    CreateOrderEffect(products, orders, req, newId);
    forall i, j | 0 <= i < j < |mid| ensures mid[i].id != mid[j].id {
      assert mid[i].id == products[i].id && mid[j].id == products[j].id;
    }
  }

  lemma CancelUnfolds(products: seq<Product>, orders: seq<Order>, orderId: ObjectId, k: nat, patch: OrderPatch)
    requires OrderIndex(orders, orderId) == Some(k)
    requires patch.orderStatus.Some? && ReleasesStock(patch.orderStatus.value)
    requires !Restore(products, orders[k].orderItems).aborted && Restore(products, orders[k].orderItems).sent.None?
    ensures UpdateOrderSpec(products, orders, orderId, patch).products == Restore(products, orders[k].orderItems).products
    ensures UpdateOrderSpec(products, orders, orderId, patch).status == 200
  {
  }

  /** Deducting each product's total and then adding back its lines' quantities is the identity. */
  lemma StockRoundTrip(products: seq<Product>, mid: seq<Product>, after: seq<Product>, items: seq<OrderItem>)
    requires SameButStock(products, mid) && SameButStock(mid, after)
    requires forall i :: 0 <= i < |products| ==>
               mid[i].stockAmount == products[i].stockAmount - Share(DistinctIds(items), items, products[i].id)
    requires forall i :: 0 <= i < |mid| ==> after[i].stockAmount == mid[i].stockAmount + QuantityOf(items, mid[i].id)
    ensures after == products
  {
    forall i | 0 <= i < |products| ensures after[i] == products[i] {
      var id := products[i].id;
      assert mid[i].id == id;
      if id !in DistinctIds(items) {
        NotAKey(items, id);
      }
    }
  }

  /** Update never writes a status outside the enumeration unless the request carries one. */
  lemma UpdateKeepsStatusesValid(products: seq<Product>, orders: seq<Order>, orderId: ObjectId, patch: OrderPatch)
    requires forall k :: 0 <= k < |orders| ==> IsOrderStatus(orders[k].orderStatus)
    requires patch.orderStatus.Some? ==> IsOrderStatus(patch.orderStatus.value)
    ensures var out := UpdateOrderSpec(products, orders, orderId, patch);
            forall k :: 0 <= k < |out.orders| ==> IsOrderStatus(out.orders[k].orderStatus)
  {
  }

  // ---------------------------------------------------------------------------
  // The handlers over the database object

  /** POST /create. `newId` is the id the store assigns to the new order. */
  method CreateOrder(db: Db, req: OrderRequest, newId: ObjectId) returns (status: int)
    requires db.Valid()
    requires forall k :: 0 <= k < |db.orders| ==> db.orders[k].id != newId
    modifies db
    ensures db.Valid()
    ensures var out := CreateOrderSpec(old(db.products), old(db.orders), req, newId);
            db.products == out.products && db.orders == out.orders && status == out.status
    ensures db.stores == old(db.stores) && db.reviews == old(db.reviews)
  {
    var ids, totals := BuildQuantityMap(req.orderItems);
    ReserveKeepsValid(db.products, ids, req.orderItems);
    var sent, aborted := DeductStock(db, ids, totals, req.orderItems);
    if aborted {
      status := Reply(sent, 500);
      return;
    }
    if StoreSlugTaken(db.orders, req.storeSlug) {
      // The unique index refuses the save; the catch block replies 500.
      status := Reply(sent, 500);
      return;
    }
    var order := NewOrder(newId, req);
    NewOrderKeepsOrdersValid(db.orders, req, newId);
    db.orders := db.orders + [order];
    status := Reply(sent, 201);
  }

  /**
   * The deduction loop of POST /create over the map's keys. It stops when a
   * second send throws; `aborted` says whether it did.
   */
  method DeductStock(db: Db, ids: seq<ObjectId>, totals: map<ObjectId, int>, ghost items: seq<OrderItem>)
    returns (sent: Option<int>, aborted: bool)
    requires forall id :: id in ids ==> id in totals && totals[id] == QuantityOf(items, id)
    modifies db`products
    ensures Reserve(old(db.products), ids, items) == Ledger(db.products, sent, aborted)
  {
    ghost var before := db.products;
    sent, aborted := None, false;
    var i := 0;
    while i < |ids|
      invariant 0 <= i <= |ids|
      invariant Reserve(before, ids[..i], items) == Ledger(db.products, sent, false)
    {
      ReserveSnoc(before, ids, i, items);
      sent, aborted := DeductOne(db, ids[i], totals[ids[i]], sent);
      if aborted {
        ReserveAborted(before, ids, i + 1, items);
        return;
      }
      i := i + 1;
    }
    assert ids[..|ids|] == ids;
  }

  /** One pass of the deduction loop, for the key `productId`. */
  method DeductOne(db: Db, productId: ObjectId, totalQuantity: int, sent: Option<int>)
    returns (nowSent: Option<int>, aborted: bool)
    modifies db`products
    ensures ReserveStep(Ledger(old(db.products), sent, false), productId, totalQuantity)
            == Ledger(db.products, nowSent, aborted)
  {
    nowSent, aborted := sent, false;
    var found := ProductIndex(db.products, productId);
    if found.None? {
      if sent.Some? {
        return sent, true;
      }
      nowSent := Some(404);
    } else {
      var product := db.products[found.value];
      if product.stockAmount < totalQuantity {
        if sent.Some? {
          return sent, true;
        }
        nowSent := Some(400);
      }
      db.products := db.products[found.value := product.(stockAmount := product.stockAmount - totalQuantity)];
    }
  }

  lemma ReserveSnoc(products: seq<Product>, ids: seq<ObjectId>, i: nat, items: seq<OrderItem>)
    requires i < |ids|
    ensures Reserve(products, ids[..i + 1], items)
            == ReserveStep(Reserve(products, ids[..i], items), ids[i], QuantityOf(items, ids[i]))
  {
    assert Init(ids[..i + 1]) == ids[..i];
  }

  /** Once the loop has thrown, the remaining keys change nothing. */
  lemma {:induction false} ReserveAborted(products: seq<Product>, ids: seq<ObjectId>, n: nat, items: seq<OrderItem>)
    requires n <= |ids| && Reserve(products, ids[..n], items).aborted
    ensures Reserve(products, ids, items) == Reserve(products, ids[..n], items)
    decreases |ids| - n
  {
    if n < |ids| {
      assert ids[..n + 1] == ids[..n] + [ids[n]];
      assert Init(ids[..n + 1]) == ids[..n];
      ReserveAborted(products, ids, n + 1, items);
    } else {
      assert ids[..n] == ids;
    }
  }

  lemma ReserveKeepsValid(products: seq<Product>, ids: seq<ObjectId>, items: seq<OrderItem>)
    requires ProductsValid(products) && Distinct(ids)
    ensures ProductsValid(Reserve(products, ids, items).products)
  {
    ReserveEffect(products, ids, items);
    SameButStockValid(products, Reserve(products, ids, items).products);
  }

  lemma RestoreKeepsValid(products: seq<Product>, items: seq<OrderItem>)
    requires ProductsValid(products)
    ensures ProductsValid(Restore(products, items).products)
  {
    RestoreEffect(products, items);
    SameButStockValid(products, Restore(products, items).products);
  }

  lemma NewOrderKeepsOrdersValid(orders: seq<Order>, req: OrderRequest, newId: ObjectId)
    requires OrdersValid(orders) && !StoreSlugTaken(orders, req.storeSlug)
    requires forall k :: 0 <= k < |orders| ==> orders[k].id != newId
    ensures OrdersValid(orders + [NewOrder(newId, req)])
  {
    var o := NewOrder(newId, req);
    forall k | 0 <= k < |orders| ensures orders[k].storeSlug != o.storeSlug {}
  }

  /** PUT /update/:orderId with the fields of `patch`. */
  method UpdateOrder(db: Db, orderId: ObjectId, patch: OrderPatch) returns (status: int)
    requires db.Valid()
    modifies db
    ensures db.Valid()
    ensures var out := UpdateOrderSpec(old(db.products), old(db.orders), orderId, patch);
            db.products == out.products && db.orders == out.orders && status == out.status
    ensures db.stores == old(db.stores) && db.reviews == old(db.reviews)
  {
    var sent: Option<int> := None;
    if patch.orderStatus.Some? && ReleasesStock(patch.orderStatus.value) {
      var found := OrderIndex(db.orders, orderId);
      if found.None? {
        sent := Some(404);
      } else {
        RestoreKeepsValid(db.products, db.orders[found.value].orderItems);
        var aborted;
        sent, aborted := ReturnStock(db, db.orders[found.value].orderItems);
        if aborted {
          status := Reply(sent, 500);
          return;
        }
      }
    }
    var target := OrderIndex(db.orders, orderId);
    if target.Some? {
      PatchKeepsOrdersValid(db.orders, target.value, patch);
      db.orders := db.orders[target.value := ApplyOrderPatch(db.orders[target.value], patch)];
      status := Reply(sent, 200);
    } else {
      status := Reply(sent, 404);
    }
  }

  /** The restoration loop of PUT /update/:orderId over the stored lines. */
  method ReturnStock(db: Db, orderItems: seq<OrderItem>) returns (sent: Option<int>, aborted: bool)
    modifies db`products
    ensures Restore(old(db.products), orderItems) == Ledger(db.products, sent, aborted)
  {
    ghost var before := db.products;
    sent, aborted := None, false;
    for i := 0 to |orderItems|
      invariant Restore(before, orderItems[..i]) == Ledger(db.products, sent, false)
    {
      RestoreSnoc(before, orderItems, i);
      sent, aborted := ReturnOne(db, orderItems[i], sent);
      if aborted {
        RestoreAborted(before, orderItems, i + 1);
        return;
      }
    }
    assert orderItems[..|orderItems|] == orderItems;
  }

  /** One pass of the restoration loop, for the stored line `item`. */
  method ReturnOne(db: Db, item: OrderItem, sent: Option<int>) returns (nowSent: Option<int>, aborted: bool)
    modifies db`products
    ensures RestoreStep(Ledger(old(db.products), sent, false), item) == Ledger(db.products, nowSent, aborted)
  {
    nowSent, aborted := sent, false;
    var found := ProductIndex(db.products, item.productId);
    if found.None? {
      if sent.Some? {
        return sent, true;
      }
      nowSent := Some(404);
    } else {
      var product := db.products[found.value];
      db.products := db.products[found.value := product.(stockAmount := product.stockAmount + item.quantity)];
    }
  }

  lemma RestoreSnoc(products: seq<Product>, items: seq<OrderItem>, i: nat)
    requires i < |items|
    ensures Restore(products, items[..i + 1]) == RestoreStep(Restore(products, items[..i]), items[i])
  {
    assert Init(items[..i + 1]) == items[..i];
  }

  lemma {:induction false} RestoreAborted(products: seq<Product>, items: seq<OrderItem>, n: nat)
    requires n <= |items| && Restore(products, items[..n]).aborted
    ensures Restore(products, items) == Restore(products, items[..n])
    decreases |items| - n
  {
    if n < |items| {
      assert items[..n + 1] == items[..n] + [items[n]];
      assert Init(items[..n + 1]) == items[..n];
      RestoreAborted(products, items, n + 1);
    } else {
      assert items[..n] == items;
    }
  }

  lemma PatchKeepsOrdersValid(orders: seq<Order>, k: nat, patch: OrderPatch)
    requires OrdersValid(orders) && k < |orders|
    ensures OrdersValid(orders[k := ApplyOrderPatch(orders[k], patch)])
  {
    var r := orders[k := ApplyOrderPatch(orders[k], patch)];
    forall i | 0 <= i < |orders| ensures r[i].id == orders[i].id && r[i].storeSlug == orders[i].storeSlug {}
  }

  // ---------------------------------------------------------------------------
  // GET /store/:storeId

  datatype StoreOrders = StoreNotFound | StoreOrders(storeName: string, storeSlug: string, orders: seq<Order>)

  /** The store's name and slug with all orders placed in it, or 404 when there is no such store. */
  function OrdersOfStore(stores: seq<Store>, orders: seq<Order>, storeId: ObjectId): (r: StoreOrders)
    ensures r.StoreNotFound? <==> forall j :: 0 <= j < |stores| ==> stores[j].id != storeId
    ensures r.StoreOrders? ==> exists j :: 0 <= j < |stores| && stores[j].id == storeId
                                 && r.storeName == stores[j].storeName && r.storeSlug == stores[j].storeSlug
    ensures r.StoreOrders? ==> forall k :: 0 <= k < |orders| && orders[k].storeId == storeId ==> orders[k] in r.orders
    ensures r.StoreOrders? ==> forall k :: 0 <= k < |r.orders| ==> r.orders[k] in orders && r.orders[k].storeId == storeId
    ensures r.StoreOrders? ==> forall o :: multiset(r.orders)[o] == if o.storeId == storeId then multiset(orders)[o] else 0
  {
    FilterCounts(orders, (o: Order) => o.storeId == storeId);
    var all := Filter(orders, (o: Order) => o.storeId == storeId);
    match StoreIndex(stores, storeId)
    case None => StoreNotFound
    case Some(j) => StoreOrders(stores[j].storeName, stores[j].storeSlug, all)
  }
}
