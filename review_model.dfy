/** The review document. */
module ReviewModel {
  import opened Wrappers
  import opened Collections

  /**
   * A stored review. `userId` is kept as the create handler sets it; the
   * schema itself declares no such path (see README). `rating` is the stored
   * number: the 1..5 bound is checked when a review is saved, not by
   * findByIdAndUpdate.
   */
  datatype Review = Review(
    id: ObjectId,
    productId: ObjectId,
    userId: ObjectId,
    userFirstName: string,
    userLastName: string,
    userPictureURL: string,
    rating: int,
    comment: Option<string>)

  /** The schema's `min: 1, max: 5` on `rating`. */
  predicate RatingInRange(rating: int) {
    1 <= rating <= 5
  }
}
