/** The store document (only the fields the core reads or writes are significant). */
module StoreModel {
  import opened Wrappers
  import opened Collections

  datatype StoreAddress = StoreAddress(address: string, city: string, department: string)

  datatype Store = Store(
    id: ObjectId,
    sellerId: ObjectId,
    sellerFirstName: string,
    sellerLastName: string,
    sellerPictureURL: string,
    storeSlug: string,
    storeName: string,
    storeDescription: Option<string>,
    storePhoneNumber: string,
    storeAddress: StoreAddress,
    storeImageURL: string)
}
