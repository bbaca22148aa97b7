/**
 * The document collections of the marketplace backend, as values.
 *
 * Every record type below is one Firestore collection of the backend
 * (`merchants`, `items`, `stocks`, `carts`, `orders`, and the `role` field of
 * `users`).  Identifiers are the store's document ids; the empty string stands
 * for a form field that was left out, as `!field` does in the handlers.
 * Timestamps and photo URLs are not modelled.
 */
module Store {

  type Id = string

  datatype Option<+T> = None | Some(value: T)

  /** A storefront; `userId` is the user that created it and owns it. */
  datatype Merchant = Merchant(name: string, category: string, norek: string, userId: Id)

  /**
   * An item of a merchant.  `quantity` is the initial stock written at
   * creation and never updated afterwards; the live count is in `stocks`.
   */
  datatype Item = Item(merchantId: Id, name: string, category: string, basePrice: int,
                       quantity: int, userId: Id)

  /** The stock record of one item, stored under the item's id. */
  datatype Stock = Stock(itemId: Id, merchantId: Id, quantity: int, userId: Id)

  datatype CartEntry = CartEntry(userId: Id, merchantId: Id, itemId: Id, quantity: int)

  /**
   * A placed order.  `item` and `price` are copies of the item's name and base
   * price at the time of ordering; `paymentProof` says whether a proof image
   * was uploaded with the request.
   */
  datatype Order = Order(userId: Id, merchantId: Id, itemId: Id, item: string, quantity: int,
                         price: int, total: int, deliveryMethod: string, paymentMethod: string,
                         paymentProof: bool, status: string, address: Option<string>)

  const DeliveryMethods: set<string> := {"delivery", "pickup"}
  const PaymentMethods: set<string> := {"cod", "digital"}

  /** The status every new order starts in. */
  const InitialStatus: string := "konfirmasi pembayaran"

  /** The statuses the two status routes accept; `InitialStatus` is not one of them. */
  const OrderStatuses: set<string> := {"pending", "shipped", "completed", "canceled"}

  /** The record a failed lookup was looking for. */
  datatype Entity = MerchantDoc | ItemDoc | StockDoc | CartDoc | OrderDoc

  /** Why a handler rejected a request; `HttpStatus` gives the response code. */
  datatype Error =
    | MissingFields
    | BadQuantity
    | BadDeliveryMethod
    | BadPaymentMethod
    | AddressRequired
    | ProofRequired
    | InsufficientStock
    | BadStatus
    | MerchantMismatch
    | NotFound(what: Entity)
    | Forbidden

  function HttpStatus(e: Error): (code: int)
    ensures code == 404 <==> e.NotFound?
    ensures code == 403 <==> e == Forbidden
    ensures code == 400 <==> !e.NotFound? && e != Forbidden
  {
    match e
    case NotFound(_) => 404
    case Forbidden => 403
    case _ => 400
  }

  /** The reply of a handler that answers with a document id. */
  datatype Result<+T> = Ok(value: T) | Err(error: Error)

  /** The reply of a handler that answers with a message only. */
  datatype Outcome = Pass | Fail(error: Error)

  /** The whole store at one moment. */
  datatype Db = Db(users: map<Id, string>, merchants: map<Id, Merchant>, items: map<Id, Item>,
                   stocks: map<Id, Stock>, carts: map<Id, CartEntry>, orders: map<Id, Order>)

  /** What every order written by the order handler satisfies. */
  predicate WellFormedOrder(o: Order)
  {
    && o.total == o.quantity * o.price
    && o.deliveryMethod in DeliveryMethods
    && o.paymentMethod in PaymentMethods
    && (o.paymentMethod == "digital" ==> o.paymentProof)
    && (o.address.Some? <==> o.deliveryMethod == "delivery")
    && (o.address.Some? ==> o.address.value != "")
    && (o.status == InitialStatus || o.status in OrderStatuses)
  }

  /** Each item has exactly one stock record, stored under the item's id, with the item's merchant and owner. */
  predicate StocksMatchItems(items: map<Id, Item>, stocks: map<Id, Stock>)
  {
    && stocks.Keys == items.Keys
    && (forall k :: k in stocks ==> stocks[k].itemId == k)
    && (forall k :: k in items && k in stocks ==>
          stocks[k].merchantId == items[k].merchantId && stocks[k].userId == items[k].userId)
  }

  /** An item's merchant exists and belongs to the item's owner. */
  predicate ItemsOwned(merchants: map<Id, Merchant>, items: map<Id, Item>)
  {
    forall k :: k in items ==>
      items[k].merchantId in merchants && merchants[items[k].merchantId].userId == items[k].userId
  }

  /** Cart quantities are positive, and an entry names its item's merchant while that item exists. */
  predicate CartsValid(items: map<Id, Item>, carts: map<Id, CartEntry>)
  {
    && (forall c :: c in carts ==> carts[c].quantity > 0)
    && (forall c :: c in carts && carts[c].itemId in items ==>
          items[carts[c].itemId].merchantId == carts[c].merchantId)
  }

  predicate OrdersValid(orders: map<Id, Order>)
  {
    forall o :: o in orders ==> WellFormedOrder(orders[o])
  }

  /** The consistency every handler keeps. */
  predicate Consistent(db: Db)
  {
    && StocksMatchItems(db.items, db.stocks)
    && ItemsOwned(db.merchants, db.items)
    && CartsValid(db.items, db.carts)
    && OrdersValid(db.orders)
  }

  /** The stocks left after deleting every stock record that names `itemId`. */
  function StocksWithout(stocks: map<Id, Stock>, itemId: Id): map<Id, Stock>
  {
    map k | k in stocks && stocks[k].itemId != itemId :: stocks[k]
  }

  /**
   * Deleting an item together with every stock record that names it keeps the
   * store consistent; since stocks are keyed by their item, exactly the item's
   * own stock record goes.
   */
  lemma DeleteItemKeepsConsistent(db: Db, itemId: Id)
    requires Consistent(db) && itemId in db.items
    ensures StocksWithout(db.stocks, itemId).Keys == db.stocks.Keys - {itemId}
    ensures Consistent(db.(items := db.items - {itemId}, stocks := StocksWithout(db.stocks, itemId)))
  {
    var items', stocks' := db.items - {itemId}, StocksWithout(db.stocks, itemId);
    assert stocks'.Keys == db.stocks.Keys - {itemId};
    assert StocksMatchItems(items', stocks');
    assert CartsValid(items', db.carts);
  }

  /**
   * Writing a well-formed order and setting one existing stock record to a new
   * count keeps the store consistent.
   */
  lemma PlaceOrderKeepsConsistent(db: Db, orderId: Id, o: Order, itemId: Id, quantity: int)
    requires Consistent(db) && WellFormedOrder(o) && itemId in db.stocks
    ensures Consistent(db.(orders := db.orders[orderId := o],
                           stocks := db.stocks[itemId := db.stocks[itemId].(quantity := quantity)]))
  {
  }

  /**
   * Adding an item under a fresh id, with its stock record under the same id,
   * keeps the store consistent when the item's merchant belongs to its owner
   * and no cart entry already names that id.
   */
  lemma AddItemKeepsConsistent(db: Db, itemId: Id, item: Item, quantity: int)
    requires Consistent(db) && itemId !in db.items
    requires item.merchantId in db.merchants && db.merchants[item.merchantId].userId == item.userId
    requires forall c :: c in db.carts ==> db.carts[c].itemId != itemId
    ensures Consistent(db.(items := db.items[itemId := item],
                           stocks := db.stocks[itemId := Stock(itemId, item.merchantId, quantity, item.userId)]))
  {
  }

  /** Renaming, recategorising or repricing an item keeps the store consistent. */
  lemma EditItemKeepsConsistent(db: Db, itemId: Id, name: string, category: string, basePrice: int)
    requires Consistent(db) && itemId in db.items
    ensures Consistent(db.(items := db.items[itemId := db.items[itemId].(
                             name := name, category := category, basePrice := basePrice)]))
  {
  }

  /** Overwriting an item's stock record with one naming the item's merchant and owner keeps the store consistent. */
  lemma SetStockKeepsConsistent(db: Db, itemId: Id, quantity: int)
    requires Consistent(db) && itemId in db.items
    ensures Consistent(db.(stocks := db.stocks[itemId := Stock(itemId, db.items[itemId].merchantId, quantity,
                                                                db.items[itemId].userId)]))
  {
  }
}
