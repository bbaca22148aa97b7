/**
 * The mutating routes of the backend as methods of one object that holds the
 * document collections.  Each method runs the route's checks in the route's
 * order, answers with the first failure and then changes nothing, or applies
 * the route's writes.  The caller is the user id the bearer token resolved to;
 * a fresh document id (`newId`) is what the store hands out for `add`/`doc()`.
 */
module Handlers {
  import opened Store
  import opened Requests

  /** The ownership guard for merchant-scoped resources. */
  predicate OwnsMerchant(merchants: map<Id, Merchant>, merchantId: Id, caller: Id)
  {
    merchantId in merchants && merchants[merchantId].userId == caller
  }

  /** The role check of the `/api/owner/...` routes. */
  predicate IsPlatformOwner(users: map<Id, string>, caller: Id)
  {
    caller in users && users[caller] == "owner"
  }

  /**
   * The two optional checks of `PUT /api/cart/:id`: a new `itemId` must be an
   * item of the requested (or current) merchant; a new `merchantId` must be
   * the merchant of the entry's CURRENT item.  Gives the entry's new item and
   * merchant.  When the entry names its item's merchant, so does the result,
   * and a request to move the entry to another merchant always fails.
   */
  function Retarget(entry: CartEntry, req: CartRequest, items: map<Id, Item>): (r: Result<(Id, Id)>)
    ensures r == Err(NotFound(ItemDoc)) <==>
      && req.itemId != "" && req.itemId != entry.itemId
      && !(req.itemId in items
           && items[req.itemId].merchantId == (if req.merchantId != "" then req.merchantId else entry.merchantId))
    ensures r == Err(MerchantMismatch) <==>
      && r != Err(NotFound(ItemDoc))
      && req.merchantId != "" && req.merchantId != entry.merchantId
      && !(entry.itemId in items && items[entry.itemId].merchantId == req.merchantId)
    ensures r.Err? ==> r.error in {NotFound(ItemDoc), MerchantMismatch}
    ensures r.Ok? ==> r.value == ((if req.itemId != "" then req.itemId else entry.itemId),
                                  (if req.merchantId != "" then req.merchantId else entry.merchantId))
    ensures r.Ok? && r.value.0 != entry.itemId ==> r.value.0 in items
    ensures (entry.itemId in items ==> items[entry.itemId].merchantId == entry.merchantId) ==>
      && (r.Ok? && r.value.0 in items ==> items[r.value.0].merchantId == r.value.1)
      && (req.merchantId != "" && req.merchantId != entry.merchantId ==> r.Err?)
  {
    var itemOk := req.itemId == "" || req.itemId == entry.itemId
      || (req.itemId in items
          && items[req.itemId].merchantId == (if req.merchantId != "" then req.merchantId else entry.merchantId));
    if !itemOk then Err(NotFound(ItemDoc))
    else
      var itemId := if req.itemId != "" && req.itemId != entry.itemId then req.itemId else entry.itemId;
      if req.merchantId != "" && req.merchantId != entry.merchantId then
        if entry.itemId in items && items[entry.itemId].merchantId == req.merchantId
        then Ok((itemId, req.merchantId))
        else Err(MerchantMismatch)
      else Ok((itemId, entry.merchantId))
  }

  class Market {
    var users: map<Id, string>         // the `role` of each user document
    var merchants: map<Id, Merchant>
    var items: map<Id, Item>
    var stocks: map<Id, Stock>          // keyed by item id
    var carts: map<Id, CartEntry>
    var orders: map<Id, Order>
    ghost var issued: set<Id>           // every document id the store has handed out

    function State(): Db
      reads this
    {
      Db(users, merchants, items, stocks, carts, orders)
    }

    ghost predicate Valid()
      reads this
    {
      && Consistent(State())
      && merchants.Keys <= issued && items.Keys <= issued
      && carts.Keys <= issued && orders.Keys <= issued
      && (forall c :: c in carts ==> carts[c].itemId in issued)
    }

    /** An empty store; user roles are assigned outside the API. */
    constructor (roles: map<Id, string>)
      ensures Valid()
      ensures State() == Db(roles, map[], map[], map[], map[], map[])
    {
      users, merchants, items, stocks, carts, orders := roles, map[], map[], map[], map[], map[];
      issued := {};
    }

    /** `POST /api/order` */
    method PlaceOrder(caller: Id, req: OrderRequest, newId: Id) returns (r: Result<Id>)
      requires Valid() && newId !in issued
      modifies this
      ensures Valid()
      ensures OrderRequestError(req).Some? ==> r == Err(OrderRequestError(req).value)
      ensures OrderRequestError(req).None? ==> (r ==
        if req.itemId !in old(stocks) then Err(NotFound(StockDoc))
        else if old(stocks)[req.itemId].quantity < req.quantity.value then Err(InsufficientStock)
        else if req.itemId !in old(items) then Err(NotFound(ItemDoc))
        else Ok(newId))
      ensures r.Err? ==> State() == old(State()) && issued == old(issued)
      ensures r.Ok? ==>
        && issued == old(issued) + {newId}
        && State() == old(State()).(
             orders := old(orders)[newId := NewOrder(caller, req, old(items)[req.itemId])],
             stocks := old(stocks)[req.itemId := old(stocks)[req.itemId].(
                         quantity := old(stocks)[req.itemId].quantity - req.quantity.value)])
        && stocks[req.itemId].quantity >= 0
        && (forall k :: k in old(stocks) && k != req.itemId ==> k in stocks && stocks[k] == old(stocks)[k])
    {
      var e := OrderRequestError(req);
      if e.Some? {
        return Err(e.value);
      }
      if req.itemId !in stocks {
        return Err(NotFound(StockDoc));
      }
      var stock := stocks[req.itemId];
      var qty := req.quantity.value;
      if stock.quantity < qty {
        return Err(InsufficientStock);
      }
      if req.itemId !in items {
        return Err(NotFound(ItemDoc));
      }
      var item := items[req.itemId];
      var order := NewOrder(caller, req, item);
      var next := State().(orders := orders[newId := order],
                           stocks := stocks[req.itemId := stock.(quantity := stock.quantity - qty)]);
      assert next == old(State()).(
        orders := old(orders)[newId := NewOrder(caller, req, old(items)[req.itemId])],
        stocks := old(stocks)[req.itemId := old(stocks)[req.itemId].(
                    quantity := old(stocks)[req.itemId].quantity - req.quantity.value)]);
      PlaceOrderKeepsConsistent(State(), newId, order, req.itemId, stock.quantity - qty);
      orders, stocks := next.orders, next.stocks;
      assert State() == next;
      issued := issued + {newId};
      r := Ok(newId);
    }

    /** `PATCH /api/order/:id/status`, for the owner of the order's merchant. */
    method UpdateOrderStatus(caller: Id, orderId: Id, status: string) returns (r: Outcome)
      requires Valid()
      modifies this
      ensures Valid() && issued == old(issued)
      ensures r ==
        if status !in OrderStatuses then Fail(BadStatus)
        else if orderId !in old(orders) then Fail(NotFound(OrderDoc))
        else if !OwnsMerchant(old(merchants), old(orders)[orderId].merchantId, caller) then Fail(Forbidden)
        else Pass
      ensures r.Fail? ==> State() == old(State())
      ensures r.Pass? ==>
        State() == old(State()).(orders := old(orders)[orderId := old(orders)[orderId].(status := status)])
    {
      if status !in OrderStatuses {
        return Fail(BadStatus);
      }
      if orderId !in orders {
        return Fail(NotFound(OrderDoc));
      }
      var order := orders[orderId];
      if !OwnsMerchant(merchants, order.merchantId, caller) {
        return Fail(Forbidden);
      }
      orders := orders[orderId := order.(status := status)];
      r := Pass;
    }

    /** `PATCH /api/owner/order/:id/status`: the role check comes first, and no merchant check. */
    method OwnerUpdateOrderStatus(caller: Id, orderId: Id, status: string) returns (r: Result<Id>)
      requires Valid()
      modifies this
      ensures Valid() && issued == old(issued)
      ensures r ==
        if !IsPlatformOwner(old(users), caller) then Err(Forbidden)
        else if status !in OrderStatuses then Err(BadStatus)
        else if orderId !in old(orders) then Err(NotFound(OrderDoc))
        else Ok(orderId)
      ensures r.Err? ==> State() == old(State())
      ensures r.Ok? ==>
        State() == old(State()).(orders := old(orders)[orderId := old(orders)[orderId].(status := status)])
    {
      if !IsPlatformOwner(users, caller) {
        return Err(Forbidden);
      }
      if status !in OrderStatuses {
        return Err(BadStatus);
      }
      if orderId !in orders {
        return Err(NotFound(OrderDoc));
      }
      orders := orders[orderId := orders[orderId].(status := status)];
      r := Ok(orderId);
    }

    /** `POST /api/cart` */
    method AddToCart(caller: Id, req: CartRequest, newId: Id) returns (r: Result<Id>)
      requires Valid() && newId !in issued
      modifies this
      ensures Valid()
      ensures r ==
        if req.merchantId == "" || req.itemId == "" || req.quantity.None? then Err(MissingFields)
        else if req.quantity.value <= 0 then Err(BadQuantity)
        else if !(req.itemId in old(items) && old(items)[req.itemId].merchantId == req.merchantId)
          then Err(NotFound(ItemDoc))
        else if !(req.itemId in old(stocks) && old(stocks)[req.itemId].quantity >= req.quantity.value)
          then Err(InsufficientStock)
        else Ok(newId)
      ensures r.Err? ==> State() == old(State()) && issued == old(issued)
      ensures r.Ok? ==>
        && issued == old(issued) + {newId}
        && State() == old(State()).(
             carts := old(carts)[newId := CartEntry(caller, req.merchantId, req.itemId, req.quantity.value)])
    {
      if req.merchantId == "" || req.itemId == "" || req.quantity.None? {
        return Err(MissingFields);
      }
      var qty := req.quantity.value;
      if qty <= 0 {
        return Err(BadQuantity);
      }
      if !(req.itemId in items && items[req.itemId].merchantId == req.merchantId) {
        return Err(NotFound(ItemDoc));
      }
      if !(req.itemId in stocks && stocks[req.itemId].quantity >= qty) {
        return Err(InsufficientStock);
      }
      carts := carts[newId := CartEntry(caller, req.merchantId, req.itemId, qty)];
      issued := issued + {newId};
      r := Ok(newId);
    }

    /** `PUT /api/cart/:id` */
    method UpdateCart(caller: Id, cartId: Id, req: CartRequest) returns (r: Result<Id>)
      requires Valid()
      modifies this
      ensures Valid() && issued == old(issued)
      ensures r ==
        if req.quantity.None? then Err(MissingFields)
        else if req.quantity.value <= 0 then Err(BadQuantity)
        else if cartId !in old(carts) then Err(NotFound(CartDoc))
        else if old(carts)[cartId].userId != caller then Err(Forbidden)
        else match Retarget(old(carts)[cartId], req, old(items))
          case Err(e) => Err(e)
          case Ok(target) =>
            if !(target.0 in old(stocks) && old(stocks)[target.0].quantity >= req.quantity.value)
            then Err(InsufficientStock)
            else Ok(cartId)
      ensures r.Err? ==> State() == old(State())
      ensures r.Ok? ==>
        var target := Retarget(old(carts)[cartId], req, old(items)).value;
        State() == old(State()).(
          carts := old(carts)[cartId := CartEntry(caller, target.1, target.0, req.quantity.value)])
    {
      if req.quantity.None? {
        return Err(MissingFields);
      }
      var qty := req.quantity.value;
      if qty <= 0 {
        return Err(BadQuantity);
      }
      if cartId !in carts {
        return Err(NotFound(CartDoc));
      }
      var entry := carts[cartId];
      if entry.userId != caller {
        return Err(Forbidden);
      }
      var target := Retarget(entry, req, items);
      if target.Err? {
        return Err(target.error);
      }
      var (itemId, merchantId) := target.value;
      if !(itemId in stocks && stocks[itemId].quantity >= qty) {
        return Err(InsufficientStock);
      }
      carts := carts[cartId := CartEntry(entry.userId, merchantId, itemId, qty)];
      r := Ok(cartId);
    }

    /** `DELETE /api/cart/:id` */
    method DeleteCart(caller: Id, cartId: Id) returns (r: Result<Id>)
      requires Valid()
      modifies this
      ensures Valid() && issued == old(issued)
      ensures r ==
        if cartId !in old(carts) then Err(NotFound(CartDoc))
        else if old(carts)[cartId].userId != caller then Err(Forbidden)
        else Ok(cartId)
      ensures r.Err? ==> State() == old(State())
      ensures r.Ok? ==> State() == old(State()).(carts := old(carts) - {cartId})
    {
      if cartId !in carts {
        return Err(NotFound(CartDoc));
      }
      if carts[cartId].userId != caller {
        return Err(Forbidden);
      }
      carts := carts - {cartId};
      r := Ok(cartId);
    }

    /** `POST /api/merchant` */
    method CreateMerchant(caller: Id, req: MerchantRequest, newId: Id) returns (r: Result<Id>)
      requires Valid() && newId !in issued
      modifies this
      ensures Valid()
      ensures r ==
        if req.name == "" || req.category == "" || req.lat == "" || req.lng == "" then Err(MissingFields)
        else Ok(newId)
      ensures r.Err? ==> State() == old(State()) && issued == old(issued)
      ensures r.Ok? ==>
        && issued == old(issued) + {newId}
        && State() == old(State()).(
             merchants := old(merchants)[newId := Merchant(req.name, req.category, req.norek, caller)])
    {
      if req.name == "" || req.category == "" || req.lat == "" || req.lng == "" {
        return Err(MissingFields);
      }
      merchants := merchants[newId := Merchant(req.name, req.category, req.norek, caller)];
      issued := issued + {newId};
      r := Ok(newId);
    }

    /** `POST /api/item`: writes the item and, under the same id, its stock record. */
    method CreateItem(caller: Id, req: ItemRequest, newId: Id) returns (r: Result<Id>)
      requires Valid() && newId !in issued
      modifies this
      ensures Valid()
      ensures r ==
        if req.merchantId == "" || req.name == "" || req.category == "" || req.basePrice.None?
           || req.quantity.None? then Err(MissingFields)
        else if req.quantity.value < 0 then Err(BadQuantity)
        else if !OwnsMerchant(old(merchants), req.merchantId, caller) then Err(Forbidden)
        else Ok(newId)
      ensures r.Err? ==> State() == old(State()) && issued == old(issued)
      ensures r.Ok? ==>
        && issued == old(issued) + {newId}
        && State() == old(State()).(
             items := old(items)[newId := Item(req.merchantId, req.name, req.category,
                                              req.basePrice.value, req.quantity.value, caller)],
             stocks := old(stocks)[newId := Stock(newId, req.merchantId, req.quantity.value, caller)])
    {
      if req.merchantId == "" || req.name == "" || req.category == "" || req.basePrice.None?
         || req.quantity.None? {
        return Err(MissingFields);
      }
      var qty := req.quantity.value;
      if qty < 0 {
        return Err(BadQuantity);
      }
      if !OwnsMerchant(merchants, req.merchantId, caller) {
        return Err(Forbidden);
      }
      var item := Item(req.merchantId, req.name, req.category, req.basePrice.value, qty, caller);
      AddItemKeepsConsistent(State(), newId, item, qty);
      items := items[newId := item];
      stocks := stocks[newId := Stock(newId, req.merchantId, qty, caller)];
      issued := issued + {newId};
      r := Ok(newId);
    }

    /** `PUT /api/item/:id`: existing orders keep their copies of name and price. */
    method UpdateItem(caller: Id, itemId: Id, req: ItemEdit) returns (r: Outcome)
      requires Valid()
      modifies this
      ensures Valid() && issued == old(issued)
      ensures r ==
        if req.name == "" || req.category == "" || req.basePrice.None? then Fail(MissingFields)
        else if itemId !in old(items) then Fail(NotFound(ItemDoc))
        else if old(items)[itemId].userId != caller then Fail(Forbidden)
        else Pass
      ensures r.Fail? ==> State() == old(State())
      ensures r.Pass? ==>
        State() == old(State()).(
          items := old(items)[itemId := old(items)[itemId].(
                     name := req.name, category := req.category, basePrice := req.basePrice.value)])
    {
      if req.name == "" || req.category == "" || req.basePrice.None? {
        return Fail(MissingFields);
      }
      if itemId !in items {
        return Fail(NotFound(ItemDoc));
      }
      var item := items[itemId];
      if item.userId != caller {
        return Fail(Forbidden);
      }
      EditItemKeepsConsistent(State(), itemId, req.name, req.category, req.basePrice.value);
      items := items[itemId := item.(name := req.name, category := req.category, basePrice := req.basePrice.value)];
      r := Pass;
    }

    /**
     * `DELETE /api/item/:id`: deletes the item, then every stock record whose
     * `itemId` is that id, one at a time.
     */
    method DeleteItem(caller: Id, itemId: Id) returns (r: Outcome)
      requires Valid()
      modifies this
      ensures Valid() && issued == old(issued)
      ensures r ==
        if itemId !in old(items) then Fail(NotFound(ItemDoc))
        else if old(items)[itemId].userId != caller then Fail(Forbidden)
        else Pass
      ensures r.Fail? ==> State() == old(State())
      ensures r.Pass? ==>
        && State() == old(State()).(
             items := old(items) - {itemId},
             stocks := StocksWithout(old(stocks), itemId))
        && stocks.Keys == old(stocks).Keys - {itemId}
    {
      if itemId !in items {
        return Fail(NotFound(ItemDoc));
      }
      if items[itemId].userId != caller {
        return Fail(Forbidden);
      }
      DeleteItemKeepsConsistent(State(), itemId);
      items := items - {itemId};
      var kept := stocks;
      var doomed := set k | k in stocks && stocks[k].itemId == itemId;
      while doomed != {}
        invariant doomed <= kept.Keys
        invariant forall k :: k in doomed ==> stocks[k].itemId == itemId
        invariant forall k :: k in stocks && stocks[k].itemId == itemId && k !in doomed ==> k !in kept
        invariant forall k :: k in stocks && stocks[k].itemId != itemId ==> k in kept
        invariant forall k :: k in kept ==> k in stocks && kept[k] == stocks[k]
        decreases doomed
      {
        var k :| k in doomed;
        kept := kept - {k};
        doomed := doomed - {k};
      }
      assert kept == StocksWithout(stocks, itemId);
      stocks := kept;
      assert State() == old(State()).(items := old(items) - {itemId}, stocks := StocksWithout(old(stocks), itemId));
      r := Pass;
    }

    /** `POST /api/stock`: overwrites (or creates) the stock record of an item the caller owns. */
    method SetStock(caller: Id, req: StockRequest) returns (r: Outcome)
      requires Valid()
      modifies this
      ensures Valid() && issued == old(issued)
      ensures r ==
        if req.itemId == "" || req.merchantId == "" || req.quantity.None? then Fail(MissingFields)
        else if !(req.itemId in old(items) && old(items)[req.itemId].merchantId == req.merchantId)
          then Fail(NotFound(ItemDoc))
        else if old(items)[req.itemId].userId != caller then Fail(Forbidden)
        else Pass
      ensures r.Fail? ==> State() == old(State())
      ensures r.Pass? ==>
        State() == old(State()).(
          stocks := old(stocks)[req.itemId := Stock(req.itemId, req.merchantId, req.quantity.value, caller)])
    {
      if req.itemId == "" || req.merchantId == "" || req.quantity.None? {
        return Fail(MissingFields);
      }
      if !(req.itemId in items && items[req.itemId].merchantId == req.merchantId) {
        return Fail(NotFound(ItemDoc));
      }
      if items[req.itemId].userId != caller {
        return Fail(Forbidden);
      }
      SetStockKeepsConsistent(State(), req.itemId, req.quantity.value);
      stocks := stocks[req.itemId := Stock(req.itemId, req.merchantId, req.quantity.value, caller)];
      r := Pass;
    }
  }
}
