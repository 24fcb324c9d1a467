/** The product document with the schema's defaults. */
module ProductModel {
  import opened Wrappers
  import opened Collections

  datatype Product = Product(
    id: ObjectId,
    storeId: ObjectId,
    productSlug: string,
    productName: string,
    productDescription: string,
    productPrice: int,
    productBrand: Option<string>,
    productCategory: string,
    stockAmount: int,
    reviewsAmount: nat,
    averageRating: real,
    leadImageURL: string,
    imagesCollectionURL: seq<string>,
    isFeatured: bool)

  /**
   * A product as `new Product({...})` builds it: `stockAmount` is required,
   * the counters start at 0 and the optional fields take their defaults.
   */
  function NewProduct(
    id: ObjectId, storeId: ObjectId, productSlug: string, productName: string,
    productDescription: string, productPrice: int, productBrand: Option<string>,
    productCategory: string, stockAmount: int, leadImageURL: Option<string>,
    imagesCollectionURL: Option<seq<string>>, isFeatured: Option<bool>): (p: Product)
    ensures p.reviewsAmount == 0 && p.averageRating == 0.0
    ensures p.stockAmount == stockAmount
    ensures leadImageURL.None? ==> p.leadImageURL == ""
    ensures imagesCollectionURL.None? ==> p.imagesCollectionURL == []
    ensures isFeatured.None? ==> !p.isFeatured
  {
    Product(id, storeId, productSlug, productName, productDescription, productPrice,
            productBrand, productCategory, stockAmount, 0, 0.0,
            if leadImageURL.Some? then leadImageURL.value else "",
            if imagesCollectionURL.Some? then imagesCollectionURL.value else [],
            isFeatured.Some? && isFeatured.value)
  }

  /**
   * The fields a product update may carry: every schema field but `_id`,
   * each given or not. The review counters are among them, since the body
   * is passed to `$set` unchecked.
   */
  datatype ProductPatch = ProductPatch(
    storeId: Option<ObjectId>,
    productSlug: Option<string>,
    productName: Option<string>,
    productDescription: Option<string>,
    productPrice: Option<int>,
    productBrand: Option<string>,
    productCategory: Option<string>,
    stockAmount: Option<int>,
    reviewsAmount: Option<nat>,
    averageRating: Option<real>,
    leadImageURL: Option<string>,
    imagesCollectionURL: Option<seq<string>>,
    isFeatured: Option<bool>)

  function Pick<T>(given: Option<T>, current: T): T {
    if given.Some? then given.value else current
  }

  /** findByIdAndUpdate's `$set`: each given field takes the given value, every other field is kept. */
  function ApplyProductPatch(p: Product, patch: ProductPatch): (r: Product)
    ensures r.id == p.id
    ensures if patch.storeId.Some? then r.storeId == patch.storeId.value else r.storeId == p.storeId
    ensures if patch.productSlug.Some? then r.productSlug == patch.productSlug.value else r.productSlug == p.productSlug
    ensures if patch.productName.Some? then r.productName == patch.productName.value else r.productName == p.productName
    ensures if patch.productDescription.Some? then r.productDescription == patch.productDescription.value
            else r.productDescription == p.productDescription
    ensures if patch.productPrice.Some? then r.productPrice == patch.productPrice.value else r.productPrice == p.productPrice
    ensures if patch.productBrand.Some? then r.productBrand == patch.productBrand else r.productBrand == p.productBrand
    ensures if patch.productCategory.Some? then r.productCategory == patch.productCategory.value
            else r.productCategory == p.productCategory
    ensures if patch.stockAmount.Some? then r.stockAmount == patch.stockAmount.value else r.stockAmount == p.stockAmount
    ensures if patch.reviewsAmount.Some? then r.reviewsAmount == patch.reviewsAmount.value
            else r.reviewsAmount == p.reviewsAmount
    ensures if patch.averageRating.Some? then r.averageRating == patch.averageRating.value
            else r.averageRating == p.averageRating
    ensures if patch.leadImageURL.Some? then r.leadImageURL == patch.leadImageURL.value else r.leadImageURL == p.leadImageURL
    ensures if patch.imagesCollectionURL.Some? then r.imagesCollectionURL == patch.imagesCollectionURL.value
            else r.imagesCollectionURL == p.imagesCollectionURL
    ensures if patch.isFeatured.Some? then r.isFeatured == patch.isFeatured.value else r.isFeatured == p.isFeatured
  {
    Product(p.id, Pick(patch.storeId, p.storeId), Pick(patch.productSlug, p.productSlug),
            Pick(patch.productName, p.productName), Pick(patch.productDescription, p.productDescription),
            Pick(patch.productPrice, p.productPrice),
            if patch.productBrand.Some? then patch.productBrand else p.productBrand,
            Pick(patch.productCategory, p.productCategory), Pick(patch.stockAmount, p.stockAmount),
            Pick(patch.reviewsAmount, p.reviewsAmount), Pick(patch.averageRating, p.averageRating),
            Pick(patch.leadImageURL, p.leadImageURL), Pick(patch.imagesCollectionURL, p.imagesCollectionURL),
            Pick(patch.isFeatured, p.isFeatured))
  }

}
