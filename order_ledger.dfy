/**
 * The stock ledger of the order routes: the per-product quantity map built
 * from the line items, and the two loops that walk it against the product
 * table (deduction on create, restoration on cancel or rejection).
 */
module OrderLedger {
  import opened Wrappers
  import opened Collections
  import opened OrderModel
  import opened ProductModel
  import opened Database

  // ---------------------------------------------------------------------------
  // The quantity map

  /** Sum of the quantities of the lines that name product `id`. */
  function QuantityOf(items: seq<OrderItem>, id: ObjectId): int {
    if items == [] then 0
    else QuantityOf(Init(items), id) + (if Last(items).productId == id then Last(items).quantity else 0)
  }

  /** Sum of the quantities of all lines. */
  function TotalQuantity(items: seq<OrderItem>): int {
    if items == [] then 0 else TotalQuantity(Init(items)) + Last(items).quantity
  }

  /** The product ids of the lines, each once, in order of first appearance (the Map's key order). */
  function DistinctIds(items: seq<OrderItem>): (ids: seq<ObjectId>)
    ensures Distinct(ids)
  {
    if items == [] then []
    else
      var d := DistinctIds(Init(items));
      if Last(items).productId in d then d else d + [Last(items).productId]
  }

  /** The keys are exactly the products some line names. */
  lemma {:induction false} DistinctIdsMembers(items: seq<OrderItem>)
    ensures forall id :: id in DistinctIds(items) <==> exists k :: 0 <= k < |items| && items[k].productId == id
  {
    if items != [] {
      DistinctIdsMembers(Init(items));
      assert forall k :: 0 <= k < |items| - 1 ==> Init(items)[k] == items[k];
    }
  }

  /** A product no line names contributes nothing. */
  lemma {:induction false} QuantityOfAbsent(items: seq<OrderItem>, id: ObjectId)
    requires forall k :: 0 <= k < |items| ==> items[k].productId != id
    ensures QuantityOf(items, id) == 0
  {
    if items != [] {
      assert forall k :: 0 <= k < |items| - 1 ==> Init(items)[k] == items[k];
      QuantityOfAbsent(Init(items), id);
    }
  }

  lemma QuantityOfSnoc(items: seq<OrderItem>, x: OrderItem, id: ObjectId)
    ensures QuantityOf(items + [x], id) == QuantityOf(items, id) + (if x.productId == id then x.quantity else 0)
  {
    assert Init(items + [x]) == items;
  }

  /** Sum of the totals of the given products. */
  function SumOver(ids: seq<ObjectId>, items: seq<OrderItem>): int {
    if ids == [] then 0 else SumOver(Init(ids), items) + QuantityOf(items, Last(ids))
  }

  lemma {:induction false} SumOverSnocItem(ids: seq<ObjectId>, items: seq<OrderItem>, x: OrderItem)
    requires Distinct(ids)
    ensures SumOver(ids, items + [x]) == SumOver(ids, items) + (if x.productId in ids then x.quantity else 0)
  {
    if ids != [] {
      assert Distinct(Init(ids));
      SumOverSnocItem(Init(ids), items, x);
      QuantityOfSnoc(items, x, Last(ids));
      assert ids == Init(ids) + [Last(ids)];
      assert x.productId in ids <==> x.productId in Init(ids) || x.productId == Last(ids);
    }
  }

  /** Merging lines by product neither loses nor double-counts a quantity. */
  lemma {:induction false} QuantitiesConserved(items: seq<OrderItem>)
    ensures SumOver(DistinctIds(items), items) == TotalQuantity(items)
  {
    if items != [] {
      var front, x := Init(items), Last(items);
      assert items == front + [x];
      var d := DistinctIds(front);
      QuantitiesConserved(front);
      SumOverSnocItem(d, front, x);
      if x.productId !in d {
        NotAKey(front, x.productId);
        QuantityOfSnoc(front, x, x.productId);
        assert Init(d + [x.productId]) == d;
      }
    }
  }

  /** The first loop of the create handler: fold the lines into a per-product total. */
  method BuildQuantityMap(items: seq<OrderItem>) returns (ids: seq<ObjectId>, totals: map<ObjectId, int>)
    ensures ids == DistinctIds(items)
    ensures forall id :: id in totals <==> id in ids
    ensures forall id :: id in totals ==> totals[id] == QuantityOf(items, id)
  {
    ids, totals := [], map[];
    for i := 0 to |items|
      invariant MapsPrefix(items, i, ids, totals)
    {
      var productId := items[i].productId;
      var quantity := items[i].quantity;
      MapsPrefixStep(items, i, ids, totals);
      if productId !in totals {
        ids := ids + [productId];
        totals := totals[productId := 0];
      }
      totals := totals[productId := totals[productId] + quantity];
    }
    assert items[..|items|] == items;
  }

  /** The loop invariant: `ids` and `totals` are the map built from the first `i` lines. */
  ghost predicate MapsPrefix(items: seq<OrderItem>, i: nat, ids: seq<ObjectId>, totals: map<ObjectId, int>)
    requires i <= |items|
  {
    && ids == DistinctIds(items[..i])
    && (forall id :: id in totals <==> id in ids)
    && (forall id :: id in totals ==> totals[id] == QuantityOf(items[..i], id))
  }

  /** One pass: a new product gets a 0 entry and a key, then the line's quantity is added. */
  lemma MapsPrefixStep(items: seq<OrderItem>, i: nat, ids: seq<ObjectId>, totals: map<ObjectId, int>)
    requires i < |items| && MapsPrefix(items, i, ids, totals)
    ensures var x := items[i];
            var seeded: map<ObjectId, int> := if x.productId in totals then totals else totals[x.productId := 0];
            var ids': seq<ObjectId> := if x.productId in totals then ids else ids + [x.productId];
            var totals': map<ObjectId, int> := seeded[x.productId := seeded[x.productId] + x.quantity];
            MapsPrefix(items, i + 1, ids', totals')
  {
    var x := items[i];
    var present := x.productId in totals;
    var seeded: map<ObjectId, int> := if present then totals else totals[x.productId := 0];
    var ids': seq<ObjectId> := if present then ids else ids + [x.productId];
    var totals': map<ObjectId, int> := seeded[x.productId := seeded[x.productId] + x.quantity];
    PrefixStep(items, i);
    if !present {
      NotAKey(items[..i], x.productId);
    }
    assert ids' == DistinctIds(items[..i + 1]);
    assert forall id :: id in totals' <==> id in ids';
    assert forall id :: id in totals' ==> totals'[id] == QuantityOf(items[..i + 1], id);
  }

  /** A product that is not among the lines' keys has total 0. */
  lemma NotAKey(items: seq<OrderItem>, id: ObjectId)
    requires id !in DistinctIds(items)
    ensures QuantityOf(items, id) == 0
  {
    DistinctIdsMembers(items);
    forall k | 0 <= k < |items| ensures items[k].productId != id {
      assert items[k].productId in DistinctIds(items);
    }
    QuantityOfAbsent(items, id);
  }

  /** One more line: how the distinct ids and every product's total move. */
  lemma PrefixStep(items: seq<OrderItem>, i: nat)
    requires i < |items|
    ensures var x := items[i];
            DistinctIds(items[..i + 1])
              == if x.productId in DistinctIds(items[..i]) then DistinctIds(items[..i])
                 else DistinctIds(items[..i]) + [x.productId]
    ensures forall id :: QuantityOf(items[..i + 1], id)
                           == QuantityOf(items[..i], id) + (if items[i].productId == id then items[i].quantity else 0)
  {
    assert Init(items[..i + 1]) == items[..i];
    assert Last(items[..i + 1]) == items[i];
  }

  // ---------------------------------------------------------------------------
  // The reply status and the loop state

  /**
   * The reply the client sees: the first status sent, otherwise `code`. A
   * later send throws (headers already sent), which ends the handler.
   */
  function Reply(sent: Option<int>, code: int): int {
    if sent.Some? then sent.value else code
  }

  /** The product table, the first status sent so far, and whether a second send threw. */
  datatype Ledger = Ledger(products: seq<Product>, sent: Option<int>, aborted: bool)

  /** `id`'s total if `id` is among `ids`, else 0. */
  function Share(ids: seq<ObjectId>, items: seq<OrderItem>, id: ObjectId): int {
    if id in ids then QuantityOf(items, id) else 0
  }

  // ---------------------------------------------------------------------------
  // Deduction on create

  /**
   * One pass of the deduction loop: a missing product sends 404; a product
   * short of stock sends 400 and is *still* decremented. A send after an
   * earlier one throws before anything else happens.
   */
  function ReserveStep(st: Ledger, id: ObjectId, total: int): Ledger {
    if st.aborted then st
    else match ProductIndex(st.products, id)
      case None => if st.sent.Some? then st.(aborted := true) else st.(sent := Some(404))
      case Some(i) =>
        var product := st.products[i];
        if product.stockAmount < total && st.sent.Some? then st.(aborted := true)
        else Ledger(st.products[i := product.(stockAmount := product.stockAmount - total)],
                    if product.stockAmount < total then Some(400) else st.sent, false)
  }

  /** The deduction loop over the map's keys `ids`. */
  function Reserve(products: seq<Product>, ids: seq<ObjectId>, items: seq<OrderItem>): Ledger {
    if ids == [] then Ledger(products, None, false)
    else ReserveStep(Reserve(products, Init(ids), items), Last(ids), QuantityOf(items, Last(ids)))
  }

  /** The message a key draws, judged on the table as it was before the loop. */
  function ReserveMessage(products: seq<Product>, id: ObjectId, total: int): (m: Option<int>)
    ensures m == Some(404) <==> ProductIndex(products, id).None?
    ensures m == Some(400) <==>
              ProductIndex(products, id).Some? && products[ProductIndex(products, id).value].stockAmount < total
    ensures m.Some? ==> m == Some(404) || m == Some(400)
  {
    match ProductIndex(products, id)
    case None => Some(404)
    case Some(i) => if products[i].stockAmount < total then Some(400) else None
  }

  function AsSeq(m: Option<int>): seq<int> {
    if m.Some? then [m.value] else []
  }

  /** The messages the loop would send, in order, if sending never threw. */
  function Messages(products: seq<Product>, ids: seq<ObjectId>, items: seq<OrderItem>): seq<int> {
    if ids == [] then []
    else Messages(products, Init(ids), items) + AsSeq(ReserveMessage(products, Last(ids), QuantityOf(items, Last(ids))))
  }

  /** The keys the loop gets through: all of them, or those before the key whose message throws. */
  function ReservedIds(products: seq<Product>, ids: seq<ObjectId>, items: seq<OrderItem>): (r: seq<ObjectId>)
    ensures |r| <= |ids| && r == ids[..|r|]
    ensures |Messages(products, ids, items)| <= 1 ==> r == ids
  {
    if ids == [] then []
    else if |Messages(products, Init(ids), items)| >= 2 then ReservedIds(products, Init(ids), items)
    else if |Messages(products, ids, items)| >= 2 then Init(ids)
    else ids
  }

  /**
   * What the deduction loop does. Only stock counts change; the reply carries
   * the first message; the loop throws exactly when it has a second message to
   * send; and every product the loop got through loses exactly its total,
   * including one that was short of stock.
   */
  lemma {:induction false} ReserveEffect(products: seq<Product>, ids: seq<ObjectId>, items: seq<OrderItem>)
    requires UniqueProductIds(products) && Distinct(ids)
    ensures var r := Reserve(products, ids, items);
            var msgs := Messages(products, ids, items);
            && SameButStock(products, r.products)
            && (r.aborted <==> |msgs| >= 2)
            && r.sent == (if msgs == [] then None else Some(msgs[0]))
            && forall i :: 0 <= i < |products| ==>
                 r.products[i].stockAmount
                   == products[i].stockAmount - Share(ReservedIds(products, ids, items), items, products[i].id)
  {
    if ids != [] {
      var front, x := Init(ids), Last(ids);
      assert ids == front + [x];
      assert Distinct(front);
      ReserveEffect(products, front, items);
      ReserveStepEffect(products, front, x, items);
    }
  }

  lemma ReserveUnfold(products: seq<Product>, front: seq<ObjectId>, x: ObjectId, items: seq<OrderItem>)
    ensures Reserve(products, front + [x], items) == ReserveStep(Reserve(products, front, items), x, QuantityOf(items, x))
  {
    assert Init(front + [x]) == front && Last(front + [x]) == x;
  }

  /** A pass that finds its product at `j` and does not throw. */
  lemma ReserveStepAt(st: Ledger, id: ObjectId, total: int, j: nat)
    requires !st.aborted && ProductIndex(st.products, id) == Some(j)
    requires !(st.products[j].stockAmount < total && st.sent.Some?)
    ensures ReserveStep(st, id, total)
            == Ledger(st.products[j := st.products[j].(stockAmount := st.products[j].stockAmount - total)],
                      if st.products[j].stockAmount < total then Some(400) else st.sent, false)
  {
  }

  /** The facts ReserveEffect states, for the keys `ids`. */
  ghost predicate ReserveAgrees(products: seq<Product>, ids: seq<ObjectId>, items: seq<OrderItem>) {
    var r := Reserve(products, ids, items);
    var msgs := Messages(products, ids, items);
    && SameButStock(products, r.products)
    && (r.aborted <==> |msgs| >= 2)
    && r.sent == (if msgs == [] then None else Some(msgs[0]))
    && forall i :: 0 <= i < |products| ==>
         r.products[i].stockAmount
           == products[i].stockAmount - Share(ReservedIds(products, ids, items), items, products[i].id)
  }

  lemma ReserveStepEffect(products: seq<Product>, front: seq<ObjectId>, x: ObjectId, items: seq<OrderItem>)
    requires UniqueProductIds(products) && Distinct(front + [x])
    requires ReserveAgrees(products, front, items)
    ensures ReserveAgrees(products, front + [x], items)
  {
    var ids := front + [x];
    assert Init(ids) == front && Last(ids) == x;
    assert x !in front;
    var prev := Reserve(products, front, items);
    if prev.aborted {
      ReserveStepAborted(products, front, x, items);
    } else {
      ProductIndexOnIds(products, prev.products, x);
      if ProductIndex(products, x).None? {
        ReserveStepMissing(products, front, x, items);
      } else {
        ReserveStepFound(products, front, x, items, ProductIndex(products, x).value);
      }
    }
  }

  /** Once thrown, the loop stays where it was. */
  lemma ReserveStepAborted(products: seq<Product>, front: seq<ObjectId>, x: ObjectId, items: seq<OrderItem>)
    requires ReserveAgrees(products, front, items) && Reserve(products, front, items).aborted
    ensures ReserveAgrees(products, front + [x], items)
  {
    var ids := front + [x];
    assert Init(ids) == front && Last(ids) == x;
    var m := ReserveMessage(products, x, QuantityOf(items, x));
    assert Messages(products, ids, items) == Messages(products, front, items) + AsSeq(m);
    assert Reserve(products, ids, items) == Reserve(products, front, items);
    assert ReservedIds(products, ids, items) == ReservedIds(products, front, items);
  }

  /** A key with no product sends 404, or throws when a message went out already. */
  lemma ReserveStepMissing(products: seq<Product>, front: seq<ObjectId>, x: ObjectId, items: seq<OrderItem>)
    requires ReserveAgrees(products, front, items) && !Reserve(products, front, items).aborted
    requires x !in front
    requires ProductIndex(products, x).None? && ProductIndex(Reserve(products, front, items).products, x).None?
    ensures ReserveAgrees(products, front + [x], items)
  {
    var ids := front + [x];
    var prev := Reserve(products, front, items);
    var msgs := Messages(products, front, items);
    assert ReservedIds(products, front, items) == front;
    ReserveAgreesElim(products, front, items);
    MissingOnLedger(products, prev, front, x, items, msgs);
    ReserveUnfold(products, front, x, items);
    MessagesUnfold(products, front, x, items);
    ReservedIdsUnfold(products, front, x, items);
    var next := ReserveStep(prev, x, QuantityOf(items, x));
    ReserveAgreesFrom(products, ids, items, next, msgs + [404], if |msgs + [404]| >= 2 then front else ids);
  }

  /** The missing-product pass on any ledger that agrees with `front`'s keys and messages. */
  lemma MissingOnLedger(products: seq<Product>, prev: Ledger, front: seq<ObjectId>, x: ObjectId, items: seq<OrderItem>,
                        msgs: seq<int>)
    requires SameButStock(products, prev.products) && !prev.aborted
    requires |msgs| <= 1 && prev.sent == (if msgs == [] then None else Some(msgs[0]))
    requires forall i :: 0 <= i < |products| ==>
               prev.products[i].stockAmount == products[i].stockAmount - Share(front, items, products[i].id)
    requires ProductIndex(products, x).None? && ProductIndex(prev.products, x).None?
    ensures AsSeq(ReserveMessage(products, x, QuantityOf(items, x))) == [404]
    ensures var next := ReserveStep(prev, x, QuantityOf(items, x));
            var all := msgs + [404];
            && SameButStock(products, next.products)
            && (next.aborted <==> |all| >= 2)
            && next.sent == Some(all[0])
            && forall i :: 0 <= i < |products| ==>
                 && next.products[i].stockAmount == products[i].stockAmount - Share(front, items, products[i].id)
                 && Share(front + [x], items, products[i].id) == Share(front, items, products[i].id)
  {
    forall i | 0 <= i < |products| ensures products[i].id != x {
    }
  }

  lemma MessagesUnfold(products: seq<Product>, front: seq<ObjectId>, x: ObjectId, items: seq<OrderItem>)
    ensures Messages(products, front + [x], items)
            == Messages(products, front, items) + AsSeq(ReserveMessage(products, x, QuantityOf(items, x)))
  {
    assert Init(front + [x]) == front && Last(front + [x]) == x;
  }

  lemma ReservedIdsUnfold(products: seq<Product>, front: seq<ObjectId>, x: ObjectId, items: seq<OrderItem>)
    ensures ReservedIds(products, front + [x], items)
            == if |Messages(products, front, items)| >= 2 then ReservedIds(products, front, items)
               else if |Messages(products, front + [x], items)| >= 2 then front
               else front + [x]
  {
    assert Init(front + [x]) == front && Last(front + [x]) == x;
  }

  /** ReserveAgrees for `ids`, from the ledger, messages and got-through keys they give. */
  lemma ReserveAgreesFrom(products: seq<Product>, ids: seq<ObjectId>, items: seq<OrderItem>,
                          r: Ledger, msgs: seq<int>, reserved: seq<ObjectId>)
    requires Reserve(products, ids, items) == r
    requires Messages(products, ids, items) == msgs
    requires ReservedIds(products, ids, items) == reserved
    requires SameButStock(products, r.products)
    requires (r.aborted <==> |msgs| >= 2) && r.sent == (if msgs == [] then None else Some(msgs[0]))
    requires forall i :: 0 <= i < |products| ==>
               r.products[i].stockAmount == products[i].stockAmount - Share(reserved, items, products[i].id)
    ensures ReserveAgrees(products, ids, items)
  {
  }

  /** A key with a product at `j`: short of stock after an earlier message, it throws. */
  lemma ReserveStepFound(products: seq<Product>, front: seq<ObjectId>, x: ObjectId, items: seq<OrderItem>, j: nat)
    requires UniqueProductIds(products)
    requires ReserveAgrees(products, front, items) && !Reserve(products, front, items).aborted
    requires x !in front
    requires ProductIndex(products, x) == Some(j) && ProductIndex(Reserve(products, front, items).products, x) == Some(j)
    ensures ReserveAgrees(products, front + [x], items)
  {
    var ids := front + [x];
    assert Init(ids) == front && Last(ids) == x;
    var prev := Reserve(products, front, items);
    var m := ReserveMessage(products, x, QuantityOf(items, x));
    assert Messages(products, ids, items) == Messages(products, front, items) + AsSeq(m);
    assert ReservedIds(products, front, items) == front;
    assert prev.products[j].stockAmount == products[j].stockAmount;
    if prev.products[j].stockAmount < QuantityOf(items, x) && prev.sent.Some? {
      assert Reserve(products, ids, items) == prev.(aborted := true);
      assert ReservedIds(products, ids, items) == front;
    } else {
      ReserveStepDeducts(products, front, x, items, j);
    }
  }

  /** Otherwise it takes its total off that product, short of stock or not. */
  lemma ReserveStepDeducts(products: seq<Product>, front: seq<ObjectId>, x: ObjectId, items: seq<OrderItem>, j: nat)
    requires UniqueProductIds(products)
    requires ReserveAgrees(products, front, items) && !Reserve(products, front, items).aborted
    requires x !in front && ReservedIds(products, front, items) == front
    requires ProductIndex(products, x) == Some(j) && ProductIndex(Reserve(products, front, items).products, x) == Some(j)
    requires Reserve(products, front, items).products[j].stockAmount == products[j].stockAmount
    requires !(products[j].stockAmount < QuantityOf(items, x) && Reserve(products, front, items).sent.Some?)
    requires Messages(products, front + [x], items)
             == Messages(products, front, items) + AsSeq(ReserveMessage(products, x, QuantityOf(items, x)))
    ensures ReserveAgrees(products, front + [x], items)
  {
    var ids := front + [x];
    var prev := Reserve(products, front, items);
    var total := QuantityOf(items, x);
    ReserveAgreesElim(products, front, items);
    DeductOnLedger(products, prev, front, x, items, j, Messages(products, front, items));
    ReserveUnfold(products, front, x, items);
    var next := ReserveStep(prev, x, total);
    var msgs := Messages(products, ids, items);
    assert msgs == Messages(products, front, items) + AsSeq(ReserveMessage(products, x, total));
    assert ReservedIds(products, ids, items) == ids;
    ReserveAgreesFrom(products, ids, items, next, msgs, ids);
  }

  /** The found-and-deducted pass on any ledger that agrees with `front`'s keys and messages. */
  lemma DeductOnLedger(products: seq<Product>, prev: Ledger, front: seq<ObjectId>, x: ObjectId, items: seq<OrderItem>,
                       j: nat, msgs: seq<int>)
    requires UniqueProductIds(products) && SameButStock(products, prev.products) && !prev.aborted
    requires |msgs| <= 1 && prev.sent == (if msgs == [] then None else Some(msgs[0]))
    requires forall i :: 0 <= i < |products| ==>
               prev.products[i].stockAmount == products[i].stockAmount - Share(front, items, products[i].id)
    requires x !in front && ProductIndex(products, x) == Some(j) && ProductIndex(prev.products, x) == Some(j)
    requires !(products[j].stockAmount < QuantityOf(items, x) && prev.sent.Some?)
    ensures var next := ReserveStep(prev, x, QuantityOf(items, x));
            var all := msgs + AsSeq(ReserveMessage(products, x, QuantityOf(items, x)));
            && !next.aborted && |all| <= 1 && next.sent == (if all == [] then None else Some(all[0]))
            && SameButStock(products, next.products)
            && forall i :: 0 <= i < |products| ==>
                 next.products[i].stockAmount == products[i].stockAmount - Share(front + [x], items, products[i].id)
  {
    var total := QuantityOf(items, x);
    ReserveStepAt(prev, x, total, j);
    SameButStockSet(products, prev.products, j, prev.products[j].stockAmount - total);
    DeductsAt(products, prev.products, front, x, items, j, total);
  }

  /** What ReserveAgrees says about keys that were all got through. */
  lemma ReserveAgreesElim(products: seq<Product>, ids: seq<ObjectId>, items: seq<OrderItem>)
    requires ReserveAgrees(products, ids, items) && ReservedIds(products, ids, items) == ids
    ensures var r := Reserve(products, ids, items);
            var msgs := Messages(products, ids, items);
            && SameButStock(products, r.products)
            && (r.aborted <==> |msgs| >= 2)
            && r.sent == (if msgs == [] then None else Some(msgs[0]))
            && forall i :: 0 <= i < |products| ==>
                 r.products[i].stockAmount == products[i].stockAmount - Share(ids, items, products[i].id)
  {
  }

  /** Taking `x`'s total off the product at `j` extends the pointwise stock equation from `front` to `front + [x]`. */
  lemma DeductsAt(products: seq<Product>, mid: seq<Product>, front: seq<ObjectId>, x: ObjectId,
                  items: seq<OrderItem>, j: nat, total: int)
    requires UniqueProductIds(products) && |mid| == |products| && j < |products| && products[j].id == x && x !in front
    requires total == QuantityOf(items, x)
    requires forall i :: 0 <= i < |products| ==>
               mid[i].stockAmount == products[i].stockAmount - Share(front, items, products[i].id)
    ensures var after := mid[j := mid[j].(stockAmount := mid[j].stockAmount - total)];
            forall i :: 0 <= i < |products| ==>
              after[i].stockAmount == products[i].stockAmount - Share(front + [x], items, products[i].id)
  {
    forall i | 0 <= i < |products|
      ensures Share(front + [x], items, products[i].id)
              == Share(front, items, products[i].id) + (if i == j then QuantityOf(items, x) else 0)
    {
      if i != j {
        assert products[i].id != x by {
          if i < j { assert products[i].id != products[j].id; }
          else { assert products[j].id != products[i].id; }
        }
      }
    }
  }

  // ---------------------------------------------------------------------------
  // Restoration on cancel / rejection

  /**
   * One pass of the restoration loop. Its keys are the stored lines' ObjectId
   * instances, which a JavaScript Map compares by reference, so every line is
   * its own entry: a missing product sends 404, a present one gets the line's
   * quantity back.
   */
  function RestoreStep(st: Ledger, item: OrderItem): Ledger {
    if st.aborted then st
    else match ProductIndex(st.products, item.productId)
      case None => if st.sent.Some? then st.(aborted := true) else st.(sent := Some(404))
      case Some(i) =>
        st.(products := st.products[i := st.products[i].(stockAmount := st.products[i].stockAmount + item.quantity)])
  }

  /** The restoration loop over the stored lines. */
  function Restore(products: seq<Product>, items: seq<OrderItem>): Ledger {
    if items == [] then Ledger(products, None, false)
    else RestoreStep(Restore(products, Init(items)), Last(items))
  }

  /** How many lines name a product that is not in the table. */
  function MissingCount(products: seq<Product>, items: seq<OrderItem>): nat {
    if items == [] then 0
    else MissingCount(products, Init(items)) + (if ProductIndex(products, Last(items).productId).None? then 1 else 0)
  }

  /** The lines the loop gets through: all, or those before the second missing product. */
  function RestoredItems(products: seq<Product>, items: seq<OrderItem>): (r: seq<OrderItem>)
    ensures |r| <= |items| && r == items[..|r|]
    ensures MissingCount(products, items) <= 1 ==> r == items
  {
    if items == [] then []
    else if MissingCount(products, Init(items)) >= 2 then RestoredItems(products, Init(items))
    else if MissingCount(products, items) >= 2 then Init(items)
    else items
  }

  /**
   * What the restoration loop does: only stock counts change, a missing
   * product makes the reply 404, a second one throws, and every product gets
   * back the quantities of the lines the loop got through.
   */
  lemma {:induction false} RestoreEffect(products: seq<Product>, items: seq<OrderItem>)
    requires UniqueProductIds(products)
    ensures var r := Restore(products, items);
            && SameButStock(products, r.products)
            && (r.aborted <==> MissingCount(products, items) >= 2)
            && r.sent == (if MissingCount(products, items) == 0 then None else Some(404))
            && forall i :: 0 <= i < |products| ==>
                 r.products[i].stockAmount
                   == products[i].stockAmount + QuantityOf(RestoredItems(products, items), products[i].id)
  {
    if items != [] {
      var front, x := Init(items), Last(items);
      assert items == front + [x];
      RestoreEffect(products, front);
      RestoreStepEffect(products, front, x);
    }
  }

  /** The facts RestoreEffect states, for the lines `items`. */
  ghost predicate RestoreAgrees(products: seq<Product>, items: seq<OrderItem>) {
    var r := Restore(products, items);
    && SameButStock(products, r.products)
    && (r.aborted <==> MissingCount(products, items) >= 2)
    && r.sent == (if MissingCount(products, items) == 0 then None else Some(404))
    && forall i :: 0 <= i < |products| ==>
         r.products[i].stockAmount
           == products[i].stockAmount + QuantityOf(RestoredItems(products, items), products[i].id)
  }

  lemma RestoreUnfold(products: seq<Product>, front: seq<OrderItem>, x: OrderItem)
    ensures Restore(products, front + [x]) == RestoreStep(Restore(products, front), x)
    ensures MissingCount(products, front + [x])
            == MissingCount(products, front) + (if ProductIndex(products, x.productId).None? then 1 else 0)
  {
    assert Init(front + [x]) == front && Last(front + [x]) == x;
  }

  lemma RestoreStepEffect(products: seq<Product>, front: seq<OrderItem>, x: OrderItem)
    requires UniqueProductIds(products) && RestoreAgrees(products, front)
    ensures RestoreAgrees(products, front + [x])
  {
    var items := front + [x];
    assert Init(items) == front && Last(items) == x;
    RestoreUnfold(products, front, x);
    var prev := Restore(products, front);
    if prev.aborted {
      assert RestoredItems(products, items) == RestoredItems(products, front);
    } else {
      assert RestoredItems(products, front) == front;
      ProductIndexOnIds(products, prev.products, x.productId);
      if ProductIndex(products, x.productId).None? {
        RestoreStepMissing(products, front, x);
      } else {
        RestoreStepFound(products, front, x, ProductIndex(products, x.productId).value);
      }
    }
  }

  /** A line whose product is gone sends 404, or throws when 404 went out already. */
  lemma RestoreStepMissing(products: seq<Product>, front: seq<OrderItem>, x: OrderItem)
    requires RestoreAgrees(products, front) && !Restore(products, front).aborted
    requires RestoredItems(products, front) == front
    requires ProductIndex(products, x.productId).None? && ProductIndex(Restore(products, front).products, x.productId).None?
    ensures RestoreAgrees(products, front + [x])
  {
    var items := front + [x];
    assert Init(items) == front && Last(items) == x;
    RestoreUnfold(products, front, x);
    forall i | 0 <= i < |products|
      ensures QuantityOf(items, products[i].id) == QuantityOf(front, products[i].id)
    {
      QuantityOfSnoc(front, x, products[i].id);
    }
  }

  /** A line whose product is at `j` gives its quantity back to that product. */
  lemma RestoreStepFound(products: seq<Product>, front: seq<OrderItem>, x: OrderItem, j: nat)
    requires UniqueProductIds(products)
    requires RestoreAgrees(products, front) && !Restore(products, front).aborted
    requires RestoredItems(products, front) == front
    requires ProductIndex(products, x.productId) == Some(j)
    requires ProductIndex(Restore(products, front).products, x.productId) == Some(j)
    ensures RestoreAgrees(products, front + [x])
  {
    var items := front + [x];
    var prev := Restore(products, front);
    var after := prev.products[j := prev.products[j].(stockAmount := prev.products[j].stockAmount + x.quantity)];
    RestoreUnfold(products, front, x);
    RestoreStepAt(prev, x, j);
    assert Restore(products, items) == prev.(products := after);
    assert MissingCount(products, items) == MissingCount(products, front);
    assert RestoredItems(products, items) == items;
    assert SameButStock(products, after);
    forall i | 0 <= i < |products|
      ensures after[i].stockAmount == products[i].stockAmount + QuantityOf(items, products[i].id)
    {
      QuantityOfSnoc(front, x, products[i].id);
      if i != j {
        assert products[i].id != x.productId by {
          if i < j { assert products[i].id != products[j].id; }
          else { assert products[j].id != products[i].id; }
        }
      }
    }
  }

  lemma RestoreStepAt(st: Ledger, item: OrderItem, j: nat)
    requires !st.aborted && ProductIndex(st.products, item.productId) == Some(j)
    ensures j < |st.products|
    ensures RestoreStep(st, item)
            == st.(products := st.products[j := st.products[j].(stockAmount := st.products[j].stockAmount + item.quantity)])
  {
  }
}
