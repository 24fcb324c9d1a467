/**
 * The review routes: create, update, the user-info sync and delete. Every
 * handler that changes a review rewrites its product's counters from the
 * live review set.
 */
module ReviewRoutes {
  import opened Wrappers
  import opened Collections
  import opened Js
  import opened ProductModel
  import opened ReviewModel
  import opened Database
  import opened RatingAggregate

  /**
   * `calculateAverageRating(productId)` and the write of its result onto the
   * product: `product.save()` after create, findByIdAndUpdate with `$set`
   * after update and delete. A product that is gone is not written.
   */
  method WriteCounters(db: Db, productId: ObjectId)
    modifies db`products
    requires ProductsValid(db.products)
    ensures db.products == Refresh(old(db.products), db.reviews, productId)
    ensures ProductsValid(db.products)
  {
    RefreshKeepsValid(db.products, db.reviews, productId);
    var aggregate := CalculateAverageRating(db.reviews, productId);
    var target := ProductIndex(db.products, productId);
    if target.Some? {
      var product := db.products[target.value];
      db.products := db.products[target.value := product.(reviewsAmount := aggregate.totalReviews,
                                                          averageRating := aggregate.newAverageRating)];
    }
  }

  // ---------------------------------------------------------------------------
  // POST /create

  /** The body of POST /create. */
  datatype ReviewRequest = ReviewRequest(
    productId: ObjectId,
    userId: ObjectId,
    userFirstName: string,
    userLastName: string,
    userPictureURL: string,
    rating: int,
    comment: Option<string>)

  /** The review `new Review({...})` builds from the request; the comment is stored as sent. */
  function NewReview(id: ObjectId, req: ReviewRequest): Review {
    Review(id, req.productId, req.userId, req.userFirstName, req.userLastName,
           req.userPictureURL, req.rating, req.comment)
  }

  /** `Review.findOne({ productId, userId })` finds something. */
  predicate HasReviewBy(rs: seq<Review>, productId: ObjectId, userId: ObjectId) {
    exists i :: 0 <= i < |rs| && rs[i].productId == productId && rs[i].userId == userId
  }

  /**
   * POST /create. `newId` is the id the store gives the new review. The
   * insert's validation refuses a rating outside 1..5, which the catch block
   * answers with 500.
   */
  method CreateReview(db: Db, req: ReviewRequest, newId: ObjectId) returns (status: int)
    requires db.Valid()
    requires forall i :: 0 <= i < |db.reviews| ==> db.reviews[i].id != newId
    modifies db`reviews, db`products
    ensures db.Valid()
    ensures db.stores == old(db.stores) && db.orders == old(db.orders)
    ensures status == 404 <==> ProductIndex(old(db.products), req.productId).None?
    ensures status == 400 <==>
              ProductIndex(old(db.products), req.productId).Some? && HasReviewBy(old(db.reviews), req.productId, req.userId)
    ensures status == 500 <==>
              && ProductIndex(old(db.products), req.productId).Some?
              && !HasReviewBy(old(db.reviews), req.productId, req.userId)
              && !RatingInRange(req.rating)
    ensures status != 201 ==> db.products == old(db.products) && db.reviews == old(db.reviews)
    ensures status == 201 ==>
              && db.reviews == old(db.reviews) + [NewReview(newId, req)]
              && db.products == Refresh(old(db.products), db.reviews, req.productId)
    ensures status in {201, 400, 404, 500}
    ensures Consistent(old(db.products), old(db.reviews)) ==> Consistent(db.products, db.reviews)
  {
    var found := ProductIndex(db.products, req.productId);
    if found.None? {
      status := 404;
      return;
    }
    var existing := FirstIndex(db.reviews, (r: Review) => r.productId == req.productId && r.userId == req.userId);
    if existing.Some? {
      status := 400;
      return;
    }
    assert !HasReviewBy(db.reviews, req.productId, req.userId);
    if !RatingInRange(req.rating) {
      status := 500;
      return;
    }
    ghost var consistent := Consistent(db.products, db.reviews);
    if consistent {
      RefreshAfterAppend(db.products, db.reviews, NewReview(newId, req));
    }
    db.reviews := db.reviews + [NewReview(newId, req)];
    WriteCounters(db, req.productId);
    status := 201;
  }

  // ---------------------------------------------------------------------------
  // PUT /update/:reviewId

  /** The body of PUT /update/:reviewId; `None` stands for an absent or null field. */
  datatype ReviewEdit = ReviewEdit(rating: Option<int>, comment: Option<string>)

  datatype CommentChange = KeepComment | UnsetComment | SetComment(text: string)

  /** The update document the handler builds: fields to `$set` and the `$unset` of the comment. */
  datatype ReviewUpdate = ReviewUpdate(rating: Option<int>, comment: CommentChange)

  /** findByIdAndUpdate applying `u`. No validators run, so the rating is not range-checked. */
  function ApplyReviewUpdate(r: Review, u: ReviewUpdate): Review {
    r.(rating := if u.rating.Some? then u.rating.value else r.rating,
       comment := match u.comment
                  case KeepComment => r.comment
                  case UnsetComment => None
                  case SetComment(t) => Some(t))
  }

  /**
   * What an edit means for the stored review: the given rating replaces the
   * old one, a given comment is stored trimmed and removed when nothing is
   * left of it, and every other field stays.
   */
  function EditedReview(r: Review, edit: ReviewEdit): Review {
    r.(rating := Pick(edit.rating, r.rating),
       comment := if edit.comment.None? then r.comment
                  else if AllWhiteSpace(edit.comment.value) then None
                  else Some(Trim(edit.comment.value)))
  }

  /** The update object of lines 78-98, built field by field. */
  method PrepareUpdate(current: Review, edit: ReviewEdit) returns (update: ReviewUpdate)
    ensures update.rating.Some? <==> edit.rating.Some? && edit.rating.value != current.rating
    ensures update.rating.Some? ==> update.rating == edit.rating
    ensures update.comment.KeepComment? <==> edit.comment.None?
    ensures update.comment.UnsetComment? <==> edit.comment.Some? && AllWhiteSpace(edit.comment.value)
    ensures ApplyReviewUpdate(current, update) == EditedReview(current, edit)
  {
    update := ReviewUpdate(None, KeepComment);
    if edit.rating.Some? && edit.rating.value != current.rating {
      update := update.(rating := edit.rating);
    }
    if edit.comment.Some? {
      var trimmedComment := Trim(edit.comment.value);
      TrimEmptyIff(edit.comment.value);
      if trimmedComment == "" {
        update := update.(comment := UnsetComment);
      } else {
        update := update.(comment := SetComment(trimmedComment));
      }
    }
  }

  /** A stored comment left by an edit is never blank and has no surrounding white space. */
  lemma EditedComment(r: Review, edit: ReviewEdit)
    requires edit.comment.Some?
    ensures var c := EditedReview(r, edit).comment;
            c.Some? ==> && c.value != []
                        && !IsWhiteSpace(c.value[0]) && !IsWhiteSpace(c.value[|c.value| - 1])
                        && c.value == Trim(edit.comment.value)
    ensures EditedReview(r, edit).comment.None? <==> AllWhiteSpace(edit.comment.value)
  {
    TrimEmptyIff(edit.comment.value);
  }

  /** Sending the same edit twice stores what sending it once does. */
  lemma EditIdempotent(r: Review, edit: ReviewEdit)
    ensures EditedReview(EditedReview(r, edit), edit) == EditedReview(r, edit)
  {
  }

  /** Update does not validate: an edit can store a rating the create path would refuse. */
  lemma EditSkipsRatingRange(r: Review, edit: ReviewEdit)
    requires edit.rating.Some? && !RatingInRange(edit.rating.value)
    ensures EditedReview(r, edit).rating == edit.rating.value
    ensures !RatingInRange(EditedReview(r, edit).rating)
  {
  }

  /** PUT /update/:reviewId. */
  method UpdateReview(db: Db, reviewId: ObjectId, edit: ReviewEdit) returns (status: int)
    requires db.Valid()
    modifies db`reviews, db`products
    ensures db.Valid()
    ensures db.stores == old(db.stores) && db.orders == old(db.orders)
    ensures status == 404 <==> ReviewIndex(old(db.reviews), reviewId).None?
    ensures status == 404 ==> db.products == old(db.products) && db.reviews == old(db.reviews)
    ensures status != 404 ==>
              && status == 200
              && var i := ReviewIndex(old(db.reviews), reviewId).value;
                 && db.reviews == old(db.reviews)[i := EditedReview(old(db.reviews)[i], edit)]
                 && db.products == Refresh(old(db.products), db.reviews, old(db.reviews)[i].productId)
    ensures Consistent(old(db.products), old(db.reviews)) ==> Consistent(db.products, db.reviews)
  {
    var found := ReviewIndex(db.reviews, reviewId);
    if found.None? {
      status := 404;
      return;
    }
    var review := db.reviews[found.value];
    var update := PrepareUpdate(review, edit);
    var updatedReview := ApplyReviewUpdate(review, update);
    ReviewsValidReplace(db.reviews, found.value, updatedReview);
    ghost var consistent := Consistent(db.products, db.reviews);
    if consistent {
      RefreshAfterReplace(db.products, db.reviews, found.value, updatedReview);
    }
    db.reviews := db.reviews[found.value := updatedReview];
    var productId := updatedReview.productId;
    WriteCounters(db, productId);
    status := 200;
  }

  // ---------------------------------------------------------------------------
  // PUT /update-user

  /**
   * The fields PUT /update-user may carry besides `userId`: the author's
   * display fields, and the review's own `productId` and `rating`, which
   * `$set` takes as readily since the body is not checked.
   */
  datatype UserInfo = UserInfo(
    userFirstName: Option<string>,
    userLastName: Option<string>,
    userPictureURL: Option<string>,
    productId: Option<ObjectId>,
    rating: Option<int>)

  /** `$set` on one review: each given field takes the given value, every other field is kept. */
  function ApplyUserInfo(r: Review, info: UserInfo): (u: Review)
    ensures u.id == r.id && u.userId == r.userId && u.comment == r.comment
    ensures if info.userFirstName.Some? then u.userFirstName == info.userFirstName.value else u.userFirstName == r.userFirstName
    ensures if info.userLastName.Some? then u.userLastName == info.userLastName.value else u.userLastName == r.userLastName
    ensures if info.userPictureURL.Some? then u.userPictureURL == info.userPictureURL.value
            else u.userPictureURL == r.userPictureURL
    ensures if info.productId.Some? then u.productId == info.productId.value else u.productId == r.productId
    ensures if info.rating.Some? then u.rating == info.rating.value else u.rating == r.rating
  {
    Review(r.id, Pick(info.productId, r.productId), r.userId, Pick(info.userFirstName, r.userFirstName),
           Pick(info.userLastName, r.userLastName), Pick(info.userPictureURL, r.userPictureURL),
           Pick(info.rating, r.rating), r.comment)
  }

  /**
   * PUT /update-user: `updateMany({ userId }, { $set })`. The update result is
   * always an object, so the reply is always 200.
   */
  method UpdateUser(db: Db, userId: ObjectId, info: UserInfo) returns (status: int)
    requires db.Valid()
    modifies db`reviews
    ensures db.Valid()
    ensures |db.reviews| == |old(db.reviews)|
    ensures forall i :: 0 <= i < |db.reviews| && old(db.reviews)[i].userId == userId ==>
              db.reviews[i] == ApplyUserInfo(old(db.reviews)[i], info)
    ensures forall i :: 0 <= i < |db.reviews| && old(db.reviews)[i].userId != userId ==>
              db.reviews[i] == old(db.reviews)[i]
    ensures status == 200
    ensures Consistent(db.products, old(db.reviews)) && info.productId.None? && info.rating.None? ==>
              Consistent(db.products, db.reviews)
  {
    ghost var before := db.reviews;
    db.reviews := UpdateWhere(db.reviews, (r: Review) => r.userId == userId, (r: Review) => ApplyUserInfo(r, info));
    assert ReviewsValid(db.reviews) by {
      forall i, j | 0 <= i < j < |db.reviews| ensures db.reviews[i].id != db.reviews[j].id {
        assert db.reviews[i].id == before[i].id && db.reviews[j].id == before[j].id;
      }
    }
    if Consistent(db.products, before) && info.productId.None? && info.rating.None? {
      forall q ensures ReviewCount(db.reviews, q) == ReviewCount(before, q) && RatingSum(db.reviews, q) == RatingSum(before, q) {
        CountSameRatings(db.reviews, before, q);
      }
      forall i | 0 <= i < |db.products| ensures CountersMatch(db.products[i], db.reviews) {
        assert CountersMatch(db.products[i], before);
        assert CalculateAverageRating(db.reviews, db.products[i].id) == CalculateAverageRating(before, db.products[i].id);
      }
    }
    status := 200;
  }

  // ---------------------------------------------------------------------------
  // DELETE /delete/:reviewId

  /** DELETE /delete/:reviewId. */
  method DeleteReview(db: Db, reviewId: ObjectId) returns (status: int)
    requires db.Valid()
    modifies db`reviews, db`products
    ensures db.Valid()
    ensures db.stores == old(db.stores) && db.orders == old(db.orders)
    ensures status == 404 <==> ReviewIndex(old(db.reviews), reviewId).None?
    ensures status == 404 ==> db.products == old(db.products) && db.reviews == old(db.reviews)
    ensures status != 404 ==>
              && status == 200
              && var i := ReviewIndex(old(db.reviews), reviewId).value;
                 && db.reviews == RemoveAt(old(db.reviews), i)
                 && db.products == Refresh(old(db.products), db.reviews, old(db.reviews)[i].productId)
    ensures Consistent(old(db.products), old(db.reviews)) ==> Consistent(db.products, db.reviews)
  {
    var found := ReviewIndex(db.reviews, reviewId);
    if found.None? {
      status := 404;
      return;
    }
    var productId := db.reviews[found.value].productId;
    ReviewsValidRemove(db.reviews, found.value);
    ghost var consistent := Consistent(db.products, db.reviews);
    if consistent {
      RefreshAfterRemove(db.products, db.reviews, found.value);
    }
    db.reviews := RemoveAt(db.reviews, found.value);
    WriteCounters(db, productId);
    status := 200;
  }
}
