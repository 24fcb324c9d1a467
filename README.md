# STK-v2 order, review, product and store bookkeeping in Dafny

This project models the back end of the STK-v2 marketplace (Express route
handlers over Mongoose collections). It covers the read-modify-write work the
handlers do against the product, review, order and store collections.

- **Orders.** `POST /orders/create` folds the order lines into a
  per-product quantity map. It takes each total off the product's stock and
  then saves the order. `PUT /orders/update/:orderId` hands the stock back for
  'Cancelled' and 'Rejected by Seller', then applies the update.
  `GET /orders/store/:storeId` lists a store's orders.
- **Reviews.** Create, update, the user-info sync and delete. Every handler
  that changes a review rewrites its product's `reviewsAmount` and
  `averageRating` from the live review set.
- **Products.** The two store listings with the optional `featured`
  filter, create with its slug, update, and the delete that takes the
  product's reviews with it.
- **Stores.** The seller's store list, create with its slug, the seller-info
  sync, and the delete that takes the store's products with it.
- **Documents.** The order, product and review documents with the schema
  enumeration, the defaults and the rating range.

## Layout

| file | module | contents |
|---|---|---|
| wrappers.dfy | Wrappers | `Option` |
| collections.dfy | Collections | ids, and the store's queries over one collection (`FirstIndex`, `Filter`, `RemoveAt`, `UpdateWhere`) |
| order_model.dfy, product_model.dfy, review_model.dfy, store_model.dfy | OrderModel, ProductModel, ReviewModel, StoreModel | the documents |
| database.dfy | Database | `class Db`: one `seq` field per collection, the unique-index invariant `Valid()` and the id lookups |
| js.dfy | Js | JavaScript truthiness and `String.prototype.trim` |
| slug.dfy | Slugs | `${transformName(name)}-${generateRandomString()}` |
| order_ledger.dfy | OrderLedger | the quantity map, and the specification functions `Reserve` and `Restore` of the deduction and restoration loops with their lemmas |
| rating_aggregate.dfy | RatingAggregate | the meaning of `calculateAverageRating`, the counter write-back and the consistency invariant |
| order_routes.dfy, review_routes.dfy, product_routes.dfy, store_routes.dfy | OrderRoutes, ReviewRoutes, ProductRoutes, StoreRoutes | the handlers as methods over `Db` |

Each handler is a method that changes only the `Db` fields its queries touch,
and it names them in `modifies`. Its `ensures` give the whole new state and
the reply status.

- **Loops.** The source's loops stay loops: `BuildQuantityMap`,
  `DeductStock` and `ReturnStock`. Each is proved against a recursive
  specification function (`DistinctIds`/`QuantityOf`, `Reserve`, `Restore`).
- **Order specifications.** The order handlers are also proved equal to
  `CreateOrderSpec` and `UpdateOrderSpec`, which are functions of the tables
  before the request. The lemmas about those functions state what the
  handlers promise.
- **Review counters.** The review, product and store handlers each keep
  `RatingAggregate.Consistent` (every product's counters agree with the live
  reviews), or re-establish it. The order lemmas `CreateKeepsCounters` and
  `UpdateKeepsCounters` show that stock changes leave it alone.

### Modelling decisions

- **Collections.** Each collection is a `seq` of records in natural
  (insertion) order. An id is a `nat` and ids are compared by value.
- **Values supplied by the caller.** A new document's id, and the results of
  `transformName` and `generateRandomString`, are parameters. The handler
  requires the id to be fresh.
- **Replies sent twice.** When a loop sends a message and later a second one,
  Express throws `ERR_HTTP_HEADERS_SENT` on the second. The throw leaves the
  `try` block. The `catch` block's own send throws again, so the client keeps
  the first status. The model records this as a `Ledger`:
  - the table;
  - the first status sent (`sent`);
  - an `aborted` flag, after which the rest of the handler does not run.

  With at most one message, every later step runs as written.
- **Deduction totals.** Create keys its map by the request's `productId`
  strings, so repeated lines are merged (`DistinctIds`, `QuantityOf`).
  The stored order's `productId` values are ObjectId instances, and a JS `Map`
  compares those by reference. So the restoration loop of update sees one
  entry per stored line, and `Restore` walks the lines. The stock effect is
  the same as merging when nothing aborts.
- **Unique indexes.** The store enforces the `_id` index and the schemas'
  `unique` indexes (`productSlug`, `storeSlug` on stores and on orders).
  A save or insert that would break one fails, and the handler's `catch`
  replies 500. `Db.Valid()` is that invariant.
- **Rating validation.** `save()` runs the schema validators.
  `findByIdAndUpdate` does not, by default. So review create refuses a rating
  outside 1..5 (500, nothing written), and review update stores any rating.
  Order update likewise stores any status string.
- **`averageRating`** is a `real`, and the mean is exact division.

### Behaviour of the code worth noting

- Review update always recomputes the product's counters, also for an edit
  that touches only the comment (reviewRoutes.ts:103-113).
- No handler checks `totalPrice == itemsPrice + shippingPrice`:
  `PricesAgree` is stated and left unchecked, and `NewOrder` copies the three
  prices as sent (orderRoutes.ts:117-130).
- Create saves the order even when a product was missing or short of stock,
  as long as at most one message was sent (orderRoutes.ts:98-133). Stock can
  go below zero.
- The review schema declares no `userId` path (src/models/reviewModel.ts:12-22).
  Under Mongoose's strict mode the `userId` set at reviewRoutes.ts:36 may
  therefore not be stored. Whether the `{ userId }` filters at
  reviewRoutes.ts:25-28 and reviewRoutes.ts:135-138 then match depends on the
  `strictQuery` setting. If the unknown path is stripped from the filter,
  the duplicate check matches any review of the product, and PUT
  /update-user rewrites every review. If it is kept, the filter matches no
  stored review. The model stores `userId` as the handler sets it and
  matches it as written, in create and in the user-info sync alike.
- Product update and the user-info sync pass the request body to `$set`
  unchecked, so they can overwrite the review counters, a product's slug or
  store, and a review's product or rating (productRoutes.ts:104-106,
  reviewRoutes.ts:132-138). A slug another product holds is refused by the
  unique index (500). The counters are then no longer kept consistent:
  `UpdateProduct` and `UpdateUser` promise consistency only for patches that
  leave those fields alone, and `PatchedCounterBreaksConsistency` shows why.

## Model

| member | source | states |
|---|---|---|
| Collections.FirstIndex | src/routes/reviewRoutes.ts:25-28 | `findOne`: the index of a record that matches, with no earlier match; `None` exactly when no record matches |
| Collections.Filter | src/routes/productRoutes.ts:23 | `find`: every result is a stored record that matches, and every stored record that matches is among the results |
| Collections.FilterCounts | src/routes/productRoutes.ts:23 | `find`: each matching record is returned as often as it is stored, and no other record is returned |
| Collections.FilterAppend | src/routes/productRoutes.ts:23 | `find` returns the matches in stored order: filtering a concatenation is concatenating the filtered parts |
| Collections.FilterSame | src/routes/productRoutes.ts:17-23 | two queries that accept the same records return the same result |
| Collections.RemoveAt | src/routes/reviewRoutes.ts:168 | `findByIdAndDelete`: one record fewer, the others in their order |
| Collections.UpdateWhere | src/routes/storeRoutes.ts:119-122 | `updateMany`: the matching records rewritten, the others unchanged, the length kept |
| Collections.FilterKeepsUniqueKeys | src/routes/productRoutes.ts:128 | `deleteMany` keeps a unique index unique |
| Collections.RemoveAtKeepsUniqueKeys | src/routes/storeRoutes.ts:145 | deleting one record keeps a unique index unique |
| Database.ProductIndex | src/routes/orderRoutes.ts:96 | `Product.findById`: the position of the product with that id; `None` exactly when there is none |
| Database.ReviewIndex | src/routes/reviewRoutes.ts:72 | `Review.findById`: the position of the review with that id; `None` exactly when there is none |
| Database.OrderIndex | src/routes/orderRoutes.ts:159 | `Order.findById`: the position of the order with that id; `None` exactly when there is none |
| Database.StoreIndex | src/routes/storeRoutes.ts:145 | `Store.findByIdAndDelete` finds the store with that id; `None` exactly when there is none |
| Database.ProductIndexOnIds | src/routes/orderRoutes.ts:186 | stock changes do not change which product `findById` finds |
| Database.ReviewsValidReplace | src/routes/reviewRoutes.ts:101 | overwriting a review in place keeps review ids unique |
| Database.ReviewsValidRemove | src/routes/reviewRoutes.ts:168 | deleting a review keeps review ids unique |
| Database.SameButStockSet | src/routes/orderRoutes.ts:110-112 | saving one product's new stock changes no other field and no other product |
| Database.SameButStockValid | src/models/productModel.ts:22 | a table that differs only in stock keeps the unique `_id` and `productSlug` indexes |
| Js.SkipLeading | src/routes/reviewRoutes.ts:89 | the first position at or after `i` that is not white space; everything skipped is white space |
| Js.SkipTrailing | src/routes/reviewRoutes.ts:89 | the position just past the last non-white character before `j`; everything skipped is white space |
| Js.Trim | src/routes/reviewRoutes.ts:89 | `trim()`: no longer than the input, and empty or starting and ending with a character that is not white space |
| Js.TrimIsInfix | src/routes/reviewRoutes.ts:89 | the trimmed string is an infix of the input, and what is cut off on each side is white space |
| Js.TrimEmptyIff | src/routes/reviewRoutes.ts:92 | `trim()` gives "" exactly when the comment is all white space |
| Js.TrimIdempotent | src/routes/reviewRoutes.ts:89 | trimming twice is trimming once |
| Slugs.LastHyphen | src/routes/storeRoutes.ts:59 | the last hyphen of a string, or `None` exactly when there is no hyphen |
| Slugs.SplitSlug | src/routes/storeRoutes.ts:59 | the inverse of slug composition: name part and hyphen-free suffix that compose back to the slug |
| Slugs.SplitCompose | src/routes/storeRoutes.ts:59 | a slug built from a hyphen-free suffix splits back into that name and suffix |
| Slugs.ComposeInjective | src/routes/productRoutes.ts:70 | two slugs with hyphen-free suffixes are equal only if name and suffix both are |
| OrderModel.ParseStatus | src/models/orderModel.ts:62-66 | the enumeration check: a string is accepted exactly when it is the label of one of the six statuses |
| OrderModel.LabelRoundTrip | src/models/orderModel.ts:27 | every status's label parses back to that status |
| OrderModel.ReleasesStockIff | src/routes/orderRoutes.ts:155-158 | the statuses that hand stock back are exactly 'Cancelled' and 'Rejected by Seller' |
| OrderModel.ApplyOrderPatch | src/routes/orderRoutes.ts:201-205 | `findByIdAndUpdate`: each given field overwritten, every other field of the order kept |
| ProductModel.NewProduct | src/models/productModel.ts:28-33 | a new product keeps the required `stockAmount` as given and starts with 0 reviews and average 0; a missing lead image, image list or featured flag takes its default ("", [], false) |
| ProductModel.ApplyProductPatch | src/routes/productRoutes.ts:104-106 | `$set` of the request body: the id is kept; each given field (store, slug, catalogue fields, stock, review counters, images, `isFeatured`) takes the given value; every field not given is kept |
| OrderLedger.DistinctIds | src/routes/orderRoutes.ts:80-92 | the Map's keys in insertion order, each once |
| OrderLedger.DistinctIdsMembers | src/routes/orderRoutes.ts:82-87 | a product is a key exactly when some order line names it |
| OrderLedger.QuantityOfAbsent | src/routes/orderRoutes.ts:82-92 | a product no line names has total 0 |
| OrderLedger.QuantityOfSnoc | src/routes/orderRoutes.ts:88-91 | one more line adds its quantity to its own product's total only |
| OrderLedger.SumOverSnocItem | src/routes/orderRoutes.ts:82-92 | over distinct keys, one more line adds its quantity once if its product is a key |
| OrderLedger.QuantitiesConserved | src/routes/orderRoutes.ts:82-92 | the totals over the keys add up to the sum of all line quantities: nothing lost, nothing counted twice |
| OrderLedger.BuildQuantityMap | src/routes/orderRoutes.ts:80-92 | the loop's map has exactly the distinct product ids as keys, and each value is the sum of that product's quantities |
| OrderLedger.MapsPrefixStep | src/routes/orderRoutes.ts:85-91 | one pass (seed a new key with 0, then add the quantity) turns the map of the first `i` lines into that of the first `i + 1` |
| OrderLedger.NotAKey | src/routes/orderRoutes.ts:82-92 | a product that is not a key has total 0 |
| OrderLedger.PrefixStep | src/routes/orderRoutes.ts:82-92 | one more line appends its id to the keys if it is new, and moves only its own product's total |
| OrderLedger.ReserveMessage | src/routes/orderRoutes.ts:98-109 | a key draws 404 exactly when its product does not exist, 400 exactly when the product exists and its stock is below the key's total, and nothing otherwise |
| OrderLedger.ReservedIds | src/routes/orderRoutes.ts:95-114 | the keys the loop gets through are a prefix of the keys, and all of them while at most one message is sent |
| OrderLedger.ReserveEffect | src/routes/orderRoutes.ts:95-114 | the deduction loop changes only stock; it throws exactly when a second message would go out; the first message is the reply; every product reached loses exactly its total, short of stock or not, and a missing product costs nothing |
| OrderLedger.ReserveUnfold | src/routes/orderRoutes.ts:95 | the loop over one more key is one more pass |
| OrderLedger.ReserveStepAt | src/routes/orderRoutes.ts:103-112 | a pass that finds its product and does not throw takes the total off that product and keeps or sets the first message |
| OrderLedger.ReserveStepEffect | src/routes/orderRoutes.ts:96-113 | one pass preserves the facts `ReserveEffect` states |
| OrderLedger.ReserveStepAborted | src/routes/orderRoutes.ts:104-108 | once a send has thrown, later keys change nothing |
| OrderLedger.ReserveStepMissing | src/routes/orderRoutes.ts:98-101 | a key without a product sends 404, or throws when a message went out already; no stock changes |
| OrderLedger.MissingOnLedger | src/routes/orderRoutes.ts:98-101 | the missing-product pass leaves stock untouched and adds a 404 to the messages |
| OrderLedger.MessagesUnfold | src/routes/orderRoutes.ts:95-114 | the messages of one more key are the earlier ones followed by that key's message |
| OrderLedger.ReservedIdsUnfold | src/routes/orderRoutes.ts:95-114 | one more key is got through exactly when the messages, its own included, still number at most one; after a throw the keys stay where they were |
| OrderLedger.ReserveAgreesFrom | src/routes/orderRoutes.ts:95-114 | the facts of `ReserveEffect`, from the loop's table, messages and keys got through |
| OrderLedger.ReserveAgreesElim | src/routes/orderRoutes.ts:95-114 | for keys all got through: only stock changed, the loop threw exactly when two messages were due, the first message is what was sent, and each product lost its share |
| OrderLedger.ReserveStepFound | src/routes/orderRoutes.ts:102-112 | a key whose product exists: it throws if short of stock after an earlier message, else it deducts |
| OrderLedger.ReserveStepDeducts | src/routes/orderRoutes.ts:103-112 | the deducting pass extends the facts of `ReserveEffect` to one more key |
| OrderLedger.DeductOnLedger | src/routes/orderRoutes.ts:103-112 | the deducting pass takes exactly the key's total off its product, keeps the first message, and can only add 400 |
| OrderLedger.DeductsAt | src/routes/orderRoutes.ts:110 | `product.stockAmount -= totalQuantity` extends "stock = old stock − share" from the earlier keys to one more |
| OrderLedger.RestoredItems | src/routes/orderRoutes.ts:182-197 | the lines the restoration loop gets through are a prefix, and all of them while at most one product is missing |
| OrderLedger.RestoreEffect | src/routes/orderRoutes.ts:182-197 | the restoration loop changes only stock; it throws exactly at the second missing product; otherwise 404 is sent for a missing one; every product reached gets back the quantities of its lines |
| OrderLedger.RestoreUnfold | src/routes/orderRoutes.ts:182-197 | one more line is one more pass, and it counts as missing when its product is |
| OrderLedger.RestoreStepEffect | src/routes/orderRoutes.ts:186-196 | one pass preserves the facts `RestoreEffect` states |
| OrderLedger.RestoreStepMissing | src/routes/orderRoutes.ts:187-190 | a line whose product is gone sends 404, or throws after an earlier 404; stock is untouched |
| OrderLedger.RestoreStepFound | src/routes/orderRoutes.ts:191-195 | a line whose product exists gives exactly its quantity back to that product |
| OrderLedger.RestoreStepAt | src/routes/orderRoutes.ts:193 | `product.stockAmount += totalQuantity` on the product found |
| OrderRoutes.NewOrder | src/routes/orderRoutes.ts:117-130 | a new order has status 'Awaiting Seller Approval'; its items, shipping address, prices, user and store are copied from the request; it is neither paid nor delivered |
| OrderRoutes.CreateOrderEffect | src/routes/orderRoutes.ts:80-136 | create, in full: only stock changes; the reply is the first loop message (404/400), else 201, or 500 when the order is not saved; the order is saved exactly when at most one message went out and the store slug is free; then every product lost exactly its total |
| OrderRoutes.NoMessages | src/routes/orderRoutes.ts:95-114 | when every key's product exists with enough stock, the loop sends nothing |
| OrderRoutes.HappyCreate | src/routes/orderRoutes.ts:95-136 | an order within the available stock gets 201 (500 if the store slug is taken); every product loses its total and none of the order's products goes below zero |
| OrderRoutes.InStockAt | src/routes/orderRoutes.ts:103 | a key with no insufficient-stock message has stock at least its total |
| OrderRoutes.DuplicateStoreSlugKeepsDeduction | src/models/orderModel.ts:59 | an order whose `storeSlug` another order holds is refused (500), but its deduction has already happened |
| OrderRoutes.UpdateOrderEffect | src/routes/orderRoutes.ts:155-211 | update, in full: only stock changes; a missing order gives 404 and changes nothing; a status other than 'Cancelled'/'Rejected by Seller' leaves stock alone; for those two with all products present each product gets back its total, the order is updated and the reply is 200 |
| OrderRoutes.CreateKeepsCounters | src/routes/orderRoutes.ts:95-114 | create leaves every product's review counters consistent with the reviews |
| OrderRoutes.UpdateKeepsCounters | src/routes/orderRoutes.ts:182-197 | update leaves every product's review counters consistent with the reviews |
| OrderRoutes.NoneMissing | src/routes/orderRoutes.ts:186-187 | when every line's product exists, no line counts as missing |
| OrderRoutes.CreateThenCancel | src/routes/orderRoutes.ts:95-197 | create followed by cancellation of that order, with all products present, restores every product exactly and replies 200 |
| OrderRoutes.AppendedOrderIndex | src/routes/orderRoutes.ts:159 | the order just saved under a fresh id is the one `findById` finds |
| OrderRoutes.CancelGivesBack | src/routes/orderRoutes.ts:182-197 | cancelling an order whose totals were deducted gives back the table before the deduction |
| OrderRoutes.RestoreAllPresent | src/routes/orderRoutes.ts:182-197 | with every product present, restoration sends nothing and every product gets back its lines' quantities |
| OrderRoutes.CreateSaves | src/routes/orderRoutes.ts:117-136 | the saving branch of create: the order is appended, and stock is the old stock less each product's total |
| OrderRoutes.CancelUnfolds | src/routes/orderRoutes.ts:155-208 | a release-status update whose restoration sends nothing leaves the restored table and replies 200 |
| OrderRoutes.StockRoundTrip | src/routes/orderRoutes.ts:110 | subtracting each product's merged total and then adding back its lines' quantities gives the original table |
| OrderRoutes.UpdateKeepsStatusesValid | src/routes/orderRoutes.ts:201-205 | update stores a status outside the enumeration only if the request carries one |
| OrderRoutes.CreateOrder | src/routes/orderRoutes.ts:75-143 | the handler's tables and reply are those of `CreateOrderSpec`; stores and reviews unchanged; unique indexes kept |
| OrderRoutes.DeductStock | src/routes/orderRoutes.ts:95-114 | the deduction loop ends in the state `Reserve` describes |
| OrderRoutes.DeductOne | src/routes/orderRoutes.ts:96-113 | one pass of the deduction loop is `ReserveStep` |
| OrderRoutes.ReserveSnoc | src/routes/orderRoutes.ts:95 | the loop over the first `i + 1` keys is one more pass |
| OrderRoutes.ReserveAborted | src/routes/orderRoutes.ts:104-108 | after a throw the remaining keys change nothing |
| OrderRoutes.ReserveKeepsValid | src/routes/orderRoutes.ts:112 | saving deducted products keeps the product indexes |
| OrderRoutes.RestoreKeepsValid | src/routes/orderRoutes.ts:195 | saving restored products keeps the product indexes |
| OrderRoutes.NewOrderKeepsOrdersValid | src/models/orderModel.ts:59 | a new order with a fresh id and a free store slug keeps the order indexes |
| OrderRoutes.UpdateOrder | src/routes/orderRoutes.ts:149-218 | the handler's tables and reply are those of `UpdateOrderSpec`; stores and reviews unchanged; unique indexes kept |
| OrderRoutes.ReturnStock | src/routes/orderRoutes.ts:182-197 | the restoration loop ends in the state `Restore` describes |
| OrderRoutes.ReturnOne | src/routes/orderRoutes.ts:186-196 | one pass of the restoration loop is `RestoreStep` |
| OrderRoutes.RestoreSnoc | src/routes/orderRoutes.ts:182 | the loop over the first `i + 1` lines is one more pass |
| OrderRoutes.RestoreAborted | src/routes/orderRoutes.ts:187-190 | after a throw the remaining lines change nothing |
| OrderRoutes.PatchKeepsOrdersValid | src/routes/orderRoutes.ts:201-205 | an order update keeps ids and store slugs, hence the order indexes |
| OrderRoutes.OrdersOfStore | src/routes/orderRoutes.ts:33-49 | 404 exactly when no store has that id; otherwise that store's name and slug with exactly the orders placed in it, each as often as it is stored |
| RatingAggregate.ReviewCount | src/routes/reviewRoutes.ts:48 | the number of reviews of a product is at most the number of reviews |
| RatingAggregate.CalculateAverageRating | src/routes/reviewRoutes.ts:48 | `totalReviews` is the number of reviews of the product, and the average is 0 when there are none |
| RatingAggregate.AverageIsMean | src/routes/reviewRoutes.ts:48 | with at least one review, average × count = sum of the ratings |
| RatingAggregate.ConsistentSameButStock | src/routes/orderRoutes.ts:110-112 | changing stock only keeps every product's counters consistent |
| RatingAggregate.Refresh | src/routes/reviewRoutes.ts:108-113 | only the product with that id changes, and it then carries the count and average of its reviews; a missing product leaves the table alone |
| RatingAggregate.RefreshKeepsValid | src/routes/reviewRoutes.ts:108-113 | writing the counters keeps the product indexes |
| RatingAggregate.CountConcat | src/routes/reviewRoutes.ts:48 | count and sum split over concatenation |
| RatingAggregate.CountAppend | src/routes/reviewRoutes.ts:45-48 | inserting a review moves only its own product's count and sum |
| RatingAggregate.CountRemove | src/routes/reviewRoutes.ts:168-171 | deleting a review takes only its own contribution out |
| RatingAggregate.CountReplace | src/routes/reviewRoutes.ts:101-105 | overwriting a review swaps its contribution for the new one's |
| RatingAggregate.CountSameRatings | src/routes/reviewRoutes.ts:135-138 | review sets that agree on product ids and ratings have the same aggregates |
| RatingAggregate.CountFilterOthers | src/routes/productRoutes.ts:128 | deleting one product's reviews leaves every other product's aggregate alone |
| RatingAggregate.CountAbsent | src/routes/productRoutes.ts:88 | a product no review names has count 0 and sum 0 |
| RatingAggregate.SumBounds | src/models/reviewModel.ts:18 | with every rating in 1..5, count ≤ sum ≤ 5 × count |
| RatingAggregate.AverageInRange | src/models/reviewModel.ts:18 | with every rating in 1..5 and at least one review, the average is in 1..5 |
| RatingAggregate.MeanBounds | src/models/reviewModel.ts:18 | a mean of values between 1 and 5 lies between 1 and 5 |
| RatingAggregate.RefreshRestores | src/routes/reviewRoutes.ts:48-53 | if only one product's reviews changed, refreshing that product makes every product consistent again |
| RatingAggregate.ConsistentFilterProducts | src/routes/storeRoutes.ts:150 | dropping products keeps the remaining ones consistent |
| RatingAggregate.RefreshAfterAppend | src/routes/reviewRoutes.ts:45-53 | after inserting a review, refreshing its product restores consistency |
| RatingAggregate.RefreshAfterReplace | src/routes/reviewRoutes.ts:101-113 | after editing a review, refreshing its product restores consistency |
| RatingAggregate.RefreshAfterRemove | src/routes/reviewRoutes.ts:168-179 | after deleting a review, refreshing its product restores consistency |
| RatingAggregate.RefreshIdempotent | src/routes/reviewRoutes.ts:108-113 | refreshing twice is refreshing once |
| ReviewRoutes.WriteCounters | src/routes/reviewRoutes.ts:48-53 | the product's counters become the aggregate of the live reviews; nothing else changes |
| ReviewRoutes.CreateReview | src/routes/reviewRoutes.ts:20-65 | 404 exactly when the product is missing; 400 exactly when that user already reviewed it; 500 exactly when the rating is outside 1..5; no write unless 201; on 201 the review is appended and its product's counters refreshed; consistency kept |
| ReviewRoutes.PrepareUpdate | src/routes/reviewRoutes.ts:78-98 | the rating is set exactly when given and different; the comment is kept exactly when absent and removed exactly when all white space; applying the update is the intended edit |
| ReviewRoutes.EditedComment | src/routes/reviewRoutes.ts:87-98 | a stored comment is the trimmed text, never blank, without surrounding white space; it is removed exactly when the text is all white space |
| ReviewRoutes.EditIdempotent | src/routes/reviewRoutes.ts:78-101 | sending the same edit twice stores what sending it once does |
| ReviewRoutes.EditSkipsRatingRange | src/routes/reviewRoutes.ts:101 | an update with any rating outside 1..5 stores that rating, which the create path would refuse |
| ReviewRoutes.UpdateReview | src/routes/reviewRoutes.ts:68-125 | 404 exactly when the review is missing, and then nothing changes; otherwise that review is edited, its product's counters refreshed, 200; consistency kept |
| ReviewRoutes.ApplyUserInfo | src/routes/reviewRoutes.ts:132-138 | `$set` on one review: id, author and comment kept; each given name, picture, product or rating field takes the given value; every field not given is kept |
| ReviewRoutes.UpdateUser | src/routes/reviewRoutes.ts:128-152 | every review of that user gets the given fields, every other review is unchanged, 200; consistency kept when neither product nor rating is given |
| ReviewRoutes.DeleteReview | src/routes/reviewRoutes.ts:155-187 | 404 exactly when the review is missing, and then nothing changes; otherwise exactly that review is removed, only its product's counters are rewritten, 200; consistency kept |
| ProductRoutes.BuildQuery | src/routes/productRoutes.ts:17-21 | the query matches exactly the store's products, and only featured ones when `featured` is truthy |
| ProductRoutes.ListByStore | src/routes/productRoutes.ts:10-25 | exactly the products of that store, only the featured ones when `featured` is truthy, each as often as it is stored and in stored order |
| ProductRoutes.StringFeaturedSelects | src/routes/productRoutes.ts:19 | any non-empty string (`"false"` included) selects the featured products only; `""` selects them all |
| ProductRoutes.ListByStoreSlug | src/routes/productRoutes.ts:28-54 | 404 exactly when no store has the slug; otherwise the store's name and exactly its (featured) products, each as often as it is stored and in stored order |
| ProductRoutes.CreateProduct | src/routes/productRoutes.ts:67-96 | 500 exactly when the composed slug is taken, and then nothing changes; otherwise the new product is appended, 201; consistency kept |
| ProductRoutes.UpdateProduct | src/routes/productRoutes.ts:98-121 | 404 exactly when the product is missing; 500 exactly when the patch gives a slug another product holds; in both cases nothing changes; otherwise only that product is patched, 200; the indexes are kept, and consistency when the counters are not given |
| ProductRoutes.PatchedCounterBreaksConsistency | src/routes/productRoutes.ts:104-106 | a patch that sets `reviewsAmount` to anything but the live count leaves that product's counters wrong |
| ProductRoutes.WithoutProductEffect | src/routes/productRoutes.ts:130 | no product of that id remains, every other product does, and the indexes are kept |
| ProductRoutes.DeleteProductKeepsConsistent | src/routes/productRoutes.ts:128-130 | deleting a product with its reviews leaves every remaining product consistent |
| ProductRoutes.DeleteProduct | src/routes/productRoutes.ts:124-136 | every review of the product and then the product are removed; 200 even when it did not exist; consistency kept |
| StoreRoutes.StoresOfSeller | src/routes/storeRoutes.ts:39-53 | 404 exactly when the seller has no store; otherwise exactly the seller's stores, each as often as it is stored, 200 |
| StoreRoutes.NewStore | src/routes/storeRoutes.ts:62-73 | the new store carries the composed slug, and its image URL defaults to "" |
| StoreRoutes.CreateStore | src/routes/storeRoutes.ts:56-84 | 500 exactly when the composed slug is taken, and then nothing changes; otherwise the new store is appended, 201 |
| StoreRoutes.UpdateSeller | src/routes/storeRoutes.ts:112-136 | every store of the seller gets the given fields, every other store is unchanged, 200 |
| StoreRoutes.DeleteStore | src/routes/storeRoutes.ts:138-160 | 404 exactly when the store is missing, and then nothing is deleted; otherwise that store and exactly its products are removed, other stores' products and all reviews stay, 200; consistency kept |

## Left out

- I/O and HTTP: response bodies and messages, `console.error`, the Express router and `express-async-handler` are not modelled. A handler returns only its status.
- The `catch` blocks' 500 for failures of the document store itself (lost connection, cast errors of malformed ObjectIds) is not modelled. The unique-index failures of the saves and of product update, and the rating validation of review create, are modelled.
- ObjectIds are compared by value. A malformed id string, which makes Mongoose throw a cast error and the handler reply 500, is not modelled.
- Required-field validation of documents is not modelled. Only the rating range on review create and the unique indexes are checked.
- JavaScript numbers: `averageRating` is an exact `real`; prices, quantities, `stockAmount` and `rating` are integers, not IEEE doubles. A non-numeric quantity in the request is not modelled (at orderRoutes.ts:90 a string quantity would concatenate rather than add).
- Requests are sequential method calls. Races between concurrent requests, and the non-atomic review-then-product writes, are not modelled.
- `calculateAverageRating`, `transformName` and `generateRandomString` are not part of this model. The aggregate is given by its count/mean meaning, and the two string helpers' results are parameters.
- `$set` of arbitrary request fields: the order, product, review and store updates carry a fixed set of optional fields (`OrderPatch`, `ProductPatch`, `UserInfo`, `SellerInfo`), not any JSON object. Paths outside the schema, `$`-operators in the body and `null` values are not modelled.
- ProductRoutes.UpdateProduct: the patch cannot carry `_id` (MongoDB refuses to change it, which would be a 500), and `reviewsAmount` is given as a natural number; consistency is promised only for patches without `reviewsAmount` and `averageRating`.
- ReviewRoutes.UpdateUser: the patch cannot carry `_id`, `userId` (destructured out at reviewRoutes.ts:132) or `comment`; consistency is promised only for patches without `productId` and `rating`. The `strictQuery` outcome for the `userId` filter is not modelled (see above).
- The plain lookups are not modelled: GET order by id, orders of a user, orders by store slug, GET product by slug, the store lookups by id and slug, the list of all stores, the reviews of a product, and PUT /stores/update/:storeId. They are single `findOne`/`find` queries, which `FirstIndex` and `Filter` describe.
- ReviewRoutes.UpdateReview: the 500 for a failed `findByIdAndUpdate` is unreachable once the review was found, since requests are sequential. It is not a branch of the model.
- ReviewRoutes.CreateReview: `userId` is stored and matched as the handler sets it. The schema's missing `userId` path, and the `strictQuery`-dependent match of the duplicate check, are not modelled (see above).
- `OrderModel.PricesAgree` is stated but no handler enforces it, as in the source.
- Js.Truthy: NaN, objects and arrays are not among the request values modelled; numbers are integers.
- Js.IsWhiteSpace: the ECMAScript WhiteSpace and LineTerminator code points (Unicode category Zs included) are listed explicitly rather than derived from the Unicode database.
