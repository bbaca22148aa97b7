/**
 * Request bodies of the mutating routes, and the checks that read nothing
 * but the request.  A text field is "" when the form left it out; a numeric
 * field is None when left out and otherwise holds the value `parseInt` read.
 */
module Requests {
  import opened Store

  /** Body of `POST /api/order`; `paymentProof` says whether a file was attached. */
  datatype OrderRequest = OrderRequest(merchantId: Id, itemId: Id, quantity: Option<int>,
                                       deliveryMethod: string, paymentMethod: string,
                                       address: string, paymentProof: bool)

  /** Body of `POST /api/cart` and `PUT /api/cart/:id`. */
  datatype CartRequest = CartRequest(merchantId: Id, itemId: Id, quantity: Option<int>)

  /** Body of `POST /api/merchant`; the location is only checked for presence. */
  datatype MerchantRequest = MerchantRequest(name: string, category: string, lat: string,
                                             lng: string, norek: string)

  /** Body of `POST /api/item`. */
  datatype ItemRequest = ItemRequest(merchantId: Id, name: string, category: string,
                                     basePrice: Option<int>, quantity: Option<int>)

  /** Body of `PUT /api/item/:id`. */
  datatype ItemEdit = ItemEdit(name: string, category: string, basePrice: Option<int>)

  /** Body of `POST /api/stock`. */
  datatype StockRequest = StockRequest(itemId: Id, merchantId: Id, quantity: Option<int>)

  predicate OrderFieldsPresent(req: OrderRequest)
  {
    req.merchantId != "" && req.itemId != "" && req.quantity.Some?
    && req.deliveryMethod != "" && req.paymentMethod != ""
  }

  /**
   * The first five checks of the order route, which run before any record is
   * read: every field present, a known delivery method, a known payment
   * method, an address for delivery, a proof for digital payment.  The
   * quantity is not checked to be positive.
   */
  function OrderRequestError(req: OrderRequest): (e: Option<Error>)
    ensures e.None? <==>
      && OrderFieldsPresent(req)
      && req.deliveryMethod in DeliveryMethods
      && req.paymentMethod in PaymentMethods
      && (req.deliveryMethod == "delivery" ==> req.address != "")
      && (req.paymentMethod == "digital" ==> req.paymentProof)
    ensures e.Some? ==> HttpStatus(e.value) == 400
    ensures e == Some(MissingFields) <==> !OrderFieldsPresent(req)
    ensures e == Some(BadDeliveryMethod) <==> OrderFieldsPresent(req) && req.deliveryMethod !in DeliveryMethods
    ensures e == Some(BadPaymentMethod) <==>
      OrderFieldsPresent(req) && req.deliveryMethod in DeliveryMethods && req.paymentMethod !in PaymentMethods
    ensures e == Some(AddressRequired) <==>
      && OrderFieldsPresent(req) && req.deliveryMethod in DeliveryMethods && req.paymentMethod in PaymentMethods
      && req.deliveryMethod == "delivery" && req.address == ""
    ensures e == Some(ProofRequired) <==>
      && OrderFieldsPresent(req) && req.deliveryMethod in DeliveryMethods && req.paymentMethod in PaymentMethods
      && (req.deliveryMethod == "delivery" ==> req.address != "")
      && req.paymentMethod == "digital" && !req.paymentProof
  {
    if !OrderFieldsPresent(req) then Some(MissingFields)
    else if req.deliveryMethod !in DeliveryMethods then Some(BadDeliveryMethod)
    else if req.paymentMethod !in PaymentMethods then Some(BadPaymentMethod)
    else if req.deliveryMethod == "delivery" && req.address == "" then Some(AddressRequired)
    else if req.paymentMethod == "digital" && !req.paymentProof then Some(ProofRequired)
    else None
  }

  /**
   * The order document written for an accepted request: the item's name and
   * price copied in, the total computed from them, the initial status, and an
   * address only for delivery.
   */
  function NewOrder(buyer: Id, req: OrderRequest, item: Item): (o: Order)
    requires OrderRequestError(req).None?
    ensures WellFormedOrder(o)
    ensures o.userId == buyer && o.merchantId == req.merchantId && o.itemId == req.itemId
    ensures o.item == item.name && o.price == item.basePrice
    ensures o.quantity == req.quantity.value && o.total == req.quantity.value * item.basePrice
    ensures o.status == InitialStatus && o.status !in OrderStatuses
    ensures o.address == (if req.deliveryMethod == "delivery" then Some(req.address) else None)
    ensures o.deliveryMethod == req.deliveryMethod && o.paymentMethod == req.paymentMethod
    ensures o.paymentProof == req.paymentProof
  {
    var qty := req.quantity.value;
    Order(buyer, req.merchantId, req.itemId, item.name, qty, item.basePrice, qty * item.basePrice,
          req.deliveryMethod, req.paymentMethod, req.paymentProof, InitialStatus,
          if req.deliveryMethod == "delivery" then Some(req.address) else None)
  }
}
