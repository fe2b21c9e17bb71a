/** The record shapes kept in the orders table.

    The table is shared by several kinds of entity, told apart by their
    `type` discriminator and all keyed by `id`. The field `type` is a Dafny
    keyword, so it is spelled `itemType` here.
 */
module Items {

  /** A store of the business: reference data seeded at deploy time. */
  datatype Store = Store(id: string, storeCode: string, storeName: string, itemType: string)

  /** An order placed against a store. `quantity` is a JavaScript number;
      only whole quantities are modelled. */
  datatype Order = Order(id: string, quantity: int, productId: string, storeId: string,
                         created: string, itemType: string)

  /** Anything the table can hold. */
  datatype Item = StoreItem(store: Store) | OrderItem(order: Order)
  {
    /** The partition key of the item. */
    function Id(): string {
      match this
      case StoreItem(s) => s.id
      case OrderItem(o) => o.id
    }
  }
}
