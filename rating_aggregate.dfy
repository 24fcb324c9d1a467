/**
 * The rating aggregate a product carries: `reviewsAmount` is how many live
 * reviews name the product and `averageRating` their mean rating, 0 when
 * there are none. The helper that computes it (`calculateAverageRating`) is
 * given by this meaning only; division is exact (`real`).
 */
module RatingAggregate {
  import opened Wrappers
  import opened Collections
  import opened ProductModel
  import opened ReviewModel
  import opened Database

  /** 1 when `r` is a review of `productId`, else 0. */
  function Counts(r: Review, productId: ObjectId): nat {
    if r.productId == productId then 1 else 0
  }

  /** The number of reviews of `productId`. */
  function ReviewCount(rs: seq<Review>, productId: ObjectId): (n: nat)
    ensures n <= |rs|
  {
    if rs == [] then 0 else Counts(rs[0], productId) + ReviewCount(rs[1..], productId)
  }

  /** The sum of the ratings of the reviews of `productId`. */
  function RatingSum(rs: seq<Review>, productId: ObjectId): int {
    if rs == [] then 0
    else (if rs[0].productId == productId then rs[0].rating else 0) + RatingSum(rs[1..], productId)
  }

  datatype Aggregate = Aggregate(newAverageRating: real, totalReviews: nat)

  /** `calculateAverageRating(productId)` over the live review set `rs`. */
  function CalculateAverageRating(rs: seq<Review>, productId: ObjectId): (a: Aggregate)
    ensures a.totalReviews == ReviewCount(rs, productId)
    ensures a.totalReviews == 0 ==> a.newAverageRating == 0.0
  {
    var n := ReviewCount(rs, productId);
    Aggregate(if n == 0 then 0.0 else RatingSum(rs, productId) as real / n as real, n)
  }

  /** With at least one review, the average times the count is the sum of the ratings. */
  lemma AverageIsMean(rs: seq<Review>, productId: ObjectId)
    requires ReviewCount(rs, productId) > 0
    ensures var a := CalculateAverageRating(rs, productId);
            a.newAverageRating * a.totalReviews as real == RatingSum(rs, productId) as real
  {
  }

  /** The product's stored counters are the aggregate of `rs`. */
  predicate CountersMatch(p: Product, rs: seq<Review>) {
    var a := CalculateAverageRating(rs, p.id);
    p.reviewsAmount == a.totalReviews && p.averageRating == a.newAverageRating
  }

  /** Every product's counters agree with the live review set. */
  predicate Consistent(ps: seq<Product>, rs: seq<Review>) {
    forall i :: 0 <= i < |ps| ==> CountersMatch(ps[i], rs)
  }

  /** A change to stock counts only leaves every product's review counters as they were. */
  lemma ConsistentSameButStock(ps: seq<Product>, qs: seq<Product>, rs: seq<Review>)
    requires SameButStock(ps, qs) && Consistent(ps, rs)
    ensures Consistent(qs, rs)
  {
    forall i | 0 <= i < |qs| ensures CountersMatch(qs[i], rs) {
      assert qs[i] == ps[i].(stockAmount := qs[i].stockAmount);
      assert CountersMatch(ps[i], rs);
    }
  }

  /**
   * The aggregate of `rs` written onto the product `productId`
   * (findByIdAndUpdate with `$set` on the two counters); a missing product
   * leaves the table as it is.
   */
  function Refresh(ps: seq<Product>, rs: seq<Review>, productId: ObjectId): (r: seq<Product>)
    ensures |r| == |ps|
    ensures forall i :: 0 <= i < |ps| && ps[i].id != productId ==> r[i] == ps[i]
    ensures UniqueProductIds(ps) ==>
              forall i :: 0 <= i < |ps| && ps[i].id == productId ==>
                r[i] == ps[i].(reviewsAmount := r[i].reviewsAmount, averageRating := r[i].averageRating)
                && CountersMatch(r[i], rs)
  {
    match ProductIndex(ps, productId)
    case None => ps
    case Some(i) =>
      var a := CalculateAverageRating(rs, productId);
      ps[i := ps[i].(reviewsAmount := a.totalReviews, averageRating := a.newAverageRating)]
  }

  /** Writing the counters touches neither ids nor slugs. */
  lemma RefreshKeepsValid(ps: seq<Product>, rs: seq<Review>, productId: ObjectId)
    requires ProductsValid(ps)
    ensures ProductsValid(Refresh(ps, rs, productId))
  {
    var r := Refresh(ps, rs, productId);
    forall i, j | 0 <= i < j < |r| ensures r[i].id != r[j].id && r[i].productSlug != r[j].productSlug {
      assert r[i].id == ps[i].id && r[j].id == ps[j].id;
      assert r[i].productSlug == ps[i].productSlug && r[j].productSlug == ps[j].productSlug;
    }
  }

  // ---------------------------------------------------------------------------
  // How the count and the sum move when the review set changes

  lemma {:induction false} CountConcat(a: seq<Review>, b: seq<Review>, productId: ObjectId)
    ensures ReviewCount(a + b, productId) == ReviewCount(a, productId) + ReviewCount(b, productId)
    ensures RatingSum(a + b, productId) == RatingSum(a, productId) + RatingSum(b, productId)
  {
    if a != [] {
      assert (a + b)[1..] == a[1..] + b;
      CountConcat(a[1..], b, productId);
    } else {
      assert a + b == b;
    }
  }

  /** Inserting a review moves only its own product's count and sum. */
  lemma CountAppend(rs: seq<Review>, r: Review, productId: ObjectId)
    ensures ReviewCount(rs + [r], productId) == ReviewCount(rs, productId) + Counts(r, productId)
    ensures RatingSum(rs + [r], productId) == RatingSum(rs, productId) + Counts(r, productId) * r.rating
  {
    CountConcat(rs, [r], productId);
  }

  /** Deleting the review at `i` takes it out of its own product's count and sum. */
  lemma CountRemove(rs: seq<Review>, i: nat, productId: ObjectId)
    requires i < |rs|
    ensures ReviewCount(RemoveAt(rs, i), productId) + Counts(rs[i], productId) == ReviewCount(rs, productId)
    ensures RatingSum(RemoveAt(rs, i), productId) + Counts(rs[i], productId) * rs[i].rating == RatingSum(rs, productId)
  {
    assert rs == rs[..i] + ([rs[i]] + rs[i + 1..]);
    CountConcat(rs[..i], [rs[i]] + rs[i + 1..], productId);
    CountConcat([rs[i]], rs[i + 1..], productId);
    CountConcat(rs[..i], rs[i + 1..], productId);
  }

  /** Overwriting the review at `i` swaps its contribution for the new one's. */
  lemma CountReplace(rs: seq<Review>, i: nat, r: Review, productId: ObjectId)
    requires i < |rs|
    ensures ReviewCount(rs[i := r], productId) + Counts(rs[i], productId) == ReviewCount(rs, productId) + Counts(r, productId)
    ensures RatingSum(rs[i := r], productId) + Counts(rs[i], productId) * rs[i].rating
            == RatingSum(rs, productId) + Counts(r, productId) * r.rating
  {
    assert rs[i := r] == rs[..i] + ([r] + rs[i + 1..]);
    assert rs == rs[..i] + ([rs[i]] + rs[i + 1..]);
    CountConcat(rs[..i], [r] + rs[i + 1..], productId);
    CountConcat([r], rs[i + 1..], productId);
    CountConcat(rs[..i], [rs[i]] + rs[i + 1..], productId);
    CountConcat([rs[i]], rs[i + 1..], productId);
  }

  /** Two review sets that agree on every product id and rating have the same aggregates. */
  lemma {:induction false} CountSameRatings(a: seq<Review>, b: seq<Review>, productId: ObjectId)
    requires |a| == |b|
    requires forall i :: 0 <= i < |a| ==> a[i].productId == b[i].productId && a[i].rating == b[i].rating
    ensures ReviewCount(a, productId) == ReviewCount(b, productId)
    ensures RatingSum(a, productId) == RatingSum(b, productId)
  {
    if a != [] {
      CountSameRatings(a[1..], b[1..], productId);
    }
  }

  /** Removing the reviews of one product leaves every other product's aggregate alone. */
  lemma {:induction false} CountFilterOthers(rs: seq<Review>, gone: ObjectId, productId: ObjectId)
    requires productId != gone
    ensures ReviewCount(Filter(rs, (r: Review) => r.productId != gone), productId) == ReviewCount(rs, productId)
    ensures RatingSum(Filter(rs, (r: Review) => r.productId != gone), productId) == RatingSum(rs, productId)
  {
    if rs != [] {
      CountFilterOthers(rs[1..], gone, productId);
    }
  }

  /** A product no review names has count 0 and average 0. */
  lemma {:induction false} CountAbsent(rs: seq<Review>, productId: ObjectId)
    requires forall i :: 0 <= i < |rs| ==> rs[i].productId != productId
    ensures ReviewCount(rs, productId) == 0 && RatingSum(rs, productId) == 0
  {
    if rs != [] {
      CountAbsent(rs[1..], productId);
    }
  }

  /** If every rating of the product is in 1..5, so is the mean. */
  lemma {:induction false} SumBounds(rs: seq<Review>, productId: ObjectId)
    requires forall i :: 0 <= i < |rs| && rs[i].productId == productId ==> RatingInRange(rs[i].rating)
    ensures ReviewCount(rs, productId) <= RatingSum(rs, productId) <= 5 * ReviewCount(rs, productId)
  {
    if rs != [] {
      SumBounds(rs[1..], productId);
    }
  }

  lemma AverageInRange(rs: seq<Review>, productId: ObjectId)
    requires forall i :: 0 <= i < |rs| && rs[i].productId == productId ==> RatingInRange(rs[i].rating)
    requires ReviewCount(rs, productId) > 0
    ensures 1.0 <= CalculateAverageRating(rs, productId).newAverageRating <= 5.0
  {
    SumBounds(rs, productId);
    AverageIsMean(rs, productId);
    var a := CalculateAverageRating(rs, productId);
    MeanBounds(RatingSum(rs, productId), a.totalReviews, a.newAverageRating);
  }

  lemma MeanBounds(sum: int, count: int, mean: real)
    requires 0 < count <= sum <= 5 * count && mean * count as real == sum as real
    ensures 1.0 <= mean <= 5.0
  {
    var c := count as real;
    assert (1.0 - mean) * c == c - sum as real <= 0.0;
    assert (mean - 5.0) * c == sum as real - 5.0 * c <= 0.0;
  }

  // ---------------------------------------------------------------------------
  // Consistency after a write

  /**
   * When only `productId`'s reviews changed since the counters last matched,
   * refreshing that product makes every product match again.
   */
  lemma RefreshRestores(ps: seq<Product>, before: seq<Review>, after: seq<Review>, productId: ObjectId)
    requires UniqueProductIds(ps) && Consistent(ps, before)
    requires forall q :: q != productId ==>
               ReviewCount(after, q) == ReviewCount(before, q) && RatingSum(after, q) == RatingSum(before, q)
    ensures Consistent(Refresh(ps, after, productId), after)
  {
    var r := Refresh(ps, after, productId);
    forall i | 0 <= i < |r| ensures CountersMatch(r[i], after) {
      if ps[i].id != productId {
        assert CountersMatch(ps[i], before);
        assert CalculateAverageRating(after, ps[i].id) == CalculateAverageRating(before, ps[i].id);
      }
    }
  }

  /** Dropping products from a consistent table leaves it consistent. */
  lemma ConsistentFilterProducts(ps: seq<Product>, rs: seq<Review>, p: Product -> bool)
    requires Consistent(ps, rs)
    ensures Consistent(Filter(ps, p), rs)
  {
    var r := Filter(ps, p);
    forall i | 0 <= i < |r| ensures CountersMatch(r[i], rs) {
      assert r[i] in ps;
    }
  }

  /** After POST /create inserts `r`, refreshing `r`'s product restores consistency. */
  lemma RefreshAfterAppend(ps: seq<Product>, rs: seq<Review>, r: Review)
    requires UniqueProductIds(ps) && Consistent(ps, rs)
    ensures Consistent(Refresh(ps, rs + [r], r.productId), rs + [r])
  {
    forall q | q != r.productId
      ensures ReviewCount(rs + [r], q) == ReviewCount(rs, q) && RatingSum(rs + [r], q) == RatingSum(rs, q)
    {
      CountAppend(rs, r, q);
    }
    RefreshRestores(ps, rs, rs + [r], r.productId);
  }

  /** After an edit of the review at `i` (same product), refreshing that product restores consistency. */
  lemma RefreshAfterReplace(ps: seq<Product>, rs: seq<Review>, i: nat, r: Review)
    requires i < |rs| && rs[i].productId == r.productId
    requires UniqueProductIds(ps) && Consistent(ps, rs)
    ensures Consistent(Refresh(ps, rs[i := r], r.productId), rs[i := r])
  {
    forall q | q != r.productId
      ensures ReviewCount(rs[i := r], q) == ReviewCount(rs, q) && RatingSum(rs[i := r], q) == RatingSum(rs, q)
    {
      CountReplace(rs, i, r, q);
    }
    RefreshRestores(ps, rs, rs[i := r], r.productId);
  }

  /** After the review at `i` is deleted, refreshing its product restores consistency. */
  lemma RefreshAfterRemove(ps: seq<Product>, rs: seq<Review>, i: nat)
    requires i < |rs|
    requires UniqueProductIds(ps) && Consistent(ps, rs)
    ensures Consistent(Refresh(ps, RemoveAt(rs, i), rs[i].productId), RemoveAt(rs, i))
  {
    forall q | q != rs[i].productId
      ensures ReviewCount(RemoveAt(rs, i), q) == ReviewCount(rs, q) && RatingSum(RemoveAt(rs, i), q) == RatingSum(rs, q)
    {
      CountRemove(rs, i, q);
    }
    RefreshRestores(ps, rs, RemoveAt(rs, i), rs[i].productId);
  }

  /** Refreshing a product that has the right counters already changes nothing. */
  lemma RefreshIdempotent(ps: seq<Product>, rs: seq<Review>, productId: ObjectId)
    requires UniqueProductIds(ps)
    ensures Refresh(Refresh(ps, rs, productId), rs, productId) == Refresh(ps, rs, productId)
  {
    var once := Refresh(ps, rs, productId);
    assert UniqueProductIds(once) by {
      forall i, j | 0 <= i < j < |once| ensures once[i].id != once[j].id {
        assert once[i].id == ps[i].id && once[j].id == ps[j].id;
      }
    }
    var twice := Refresh(once, rs, productId);
    forall i | 0 <= i < |ps| ensures twice[i] == once[i] {
      assert once[i].id == ps[i].id;
    }
  }
}
