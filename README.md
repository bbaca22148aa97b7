# PasarKu marketplace backend, modelled in Dafny

PasarKu is an Express backend for a local-market app. It stores its data in
Firestore collections:

- `merchants` — storefronts, each owned by the user who created it;
- `items` — the goods of a merchant;
- `stocks` — one stock record per item, stored under the item's id;
- `carts` — cart entries;
- `orders` — placed orders;
- `users` — each user's `role`.

This project models the part of `index.js` that holds the real rules. It has
two parts.

The first part is the mutating routes. They are methods of a `Market` class
whose fields are the collections, held as maps from document id to record:

- placing an order;
- the two order-status routes;
- adding, editing and deleting a cart entry;
- creating, editing and deleting an item;
- setting a stock record;
- creating a merchant.

Each method runs the route's checks in the route's order. If one fails, it
answers with that failure (400, 403 or 404) and changes nothing. Otherwise it
applies exactly the route's writes. Every method keeps a store invariant,
`Market.Valid` (built on `Store.Consistent`). The invariant says:

- every item has exactly one stock record, under its own id, naming the
  item's merchant and owner;
- an item's merchant exists and belongs to the item's owner;
- cart quantities are positive, and a cart entry names its item's merchant
  for as long as that item exists;
- every order is well formed: the total is quantity times price, the
  delivery and payment methods are known, digital payment has a proof, an
  address is present exactly for delivery, and the status is a known one.

The second part is the read-only computations, written as functions:

- the product search (`Search`): category filter, case-insensitive name
  filter, price sort;
- the seller dashboard (`Dashboard`): total sales of completed orders,
  orders per status, and the five most-ordered products;
- the list operations both are built from (`Seqs`).

The caller of a route is the user id its bearer token resolves to. A fresh
document id is a parameter `newId` that the store has never handed out. A
form field that is absent or empty is the empty string, or `None` for the
numeric fields.

Where the route code and its documentation differ, the model follows the
code:

- placing an order does not check that the quantity is positive, unlike
  adding to the cart;
- placing an order does not check that the item belongs to the given
  merchant;
- the status routes accept any of the four statuses, whatever the order's
  current status;
- a new order's status, "konfirmasi pembayaran", is not one of those four;
- setting a stock record does not check the sign of the quantity, unlike
  creating an item, so a negative stock can be stored; the store invariant
  has no lower bound on stock quantities.

## Model

| member | source | states |
|---|---|---|
| Store.HttpStatus | index.js:765-787 | `NotFound` answers 404, `Forbidden` 403, and every other error 400. Each route picks the error kind its literal status code implies: a missing merchant is `Forbidden`, and a missing stock record or current item in the cart routes is a 400 error. |
| Store.DeleteItemKeepsConsistent | index.js:455-479 | Deleting an item plus every stock record naming it removes exactly the item's own stock key. The store stays consistent. |
| Store.PlaceOrderKeepsConsistent | index.js:702-722 | Writing a well-formed order and resetting one existing stock count keeps the store consistent. |
| Store.AddItemKeepsConsistent | index.js:387-404 | Adding an item under a fresh id, with its stock record under the same id, keeps the store consistent. This needs the item's merchant to belong to its owner, and no cart entry to name the new id already (a freshly issued id is named by none). |
| Store.EditItemKeepsConsistent | index.js:434-447 | Changing an item's name, category and price keeps the store consistent. |
| Store.SetStockKeepsConsistent | index.js:542-549 | Overwriting an item's stock record keeps the store consistent when the record names the item's merchant and owner. |
| Requests.OrderRequestError | index.js:649-663 | Checks run in order: missing fields, then unknown delivery method, then unknown payment method, then delivery without an address, then digital payment without a proof. Each rejection is given exactly when its own check fails and every earlier check passes. The request passes exactly when all five checks pass. Every rejection is a 400. |
| Requests.NewOrder | index.js:684-717 | The new order copies the item's name and price. Its total is quantity × price and its status is the initial one, which is outside the four route statuses. It has an address exactly for delivery, and it is well formed. |
| Handlers.Retarget | index.js:205-222 | 404 exactly when a different item is requested that does not exist or does not belong to the requested merchant (the entry's merchant if none is requested). Otherwise 400 exactly when a different merchant is requested that is not the merchant of the entry's current item. Otherwise the entry gets the requested item and merchant, each defaulting to the entry's own, and a changed item exists. If the entry matched its item's merchant, so does the result, and any attempt to change the merchant fails. |
| Handlers.Market.PlaceOrder | index.js:645-728 | The five request checks come first. Then: no stock record gives 404, stock below the quantity gives 400, no item gives 404. A rejection changes nothing. Success adds exactly `NewOrder` under the new id and lowers only that item's stock by the quantity. That stock is never negative afterwards. |
| Handlers.Market.UpdateOrderStatus | index.js:765-787 | A status outside the four gives 400, a missing order 404, and a caller who does not own the order's merchant 403. Otherwise only that order's status changes. |
| Handlers.Market.OwnerUpdateOrderStatus | index.js:942-975 | A caller without the owner role gets 403, checked before the status. Then an unknown status gives 400 and a missing order 404. There is no merchant-ownership check. Otherwise only that order's status changes. |
| Handlers.Market.AddToCart | index.js:115-150 | Missing fields give 400 and a non-positive quantity 400. An item that is missing or of another merchant gives 404, and too little stock 400. Success adds one entry owned by the caller and changes no stock. |
| Handlers.Market.UpdateCart | index.js:183-242 | Missing or non-positive quantity gives 400, a missing entry 404, and an entry of another user 403. Then the `Retarget` checks run, then the stock check on the resulting item. Success rewrites only that entry. |
| Handlers.Market.DeleteCart | index.js:245-262 | A missing entry gives 404 and another user's entry 403. Otherwise only that entry is removed. |
| Handlers.Market.CreateMerchant | index.js:289-321 | A missing name, category, latitude or longitude gives 400. Otherwise one merchant is added, owned by the caller. |
| Handlers.Market.CreateItem | index.js:363-409 | Missing fields give 400, a negative quantity 400, and a merchant that is missing or not the caller's 403. Success adds the item and a stock record under the same new id with the initial quantity. |
| Handlers.Market.UpdateItem | index.js:412-452 | Missing fields give 400, a missing item 404, and another user's item 403. Otherwise only the item's name, category and price change; orders keep their copies. |
| Handlers.Market.DeleteItem | index.js:455-479 | A missing item gives 404 and another user's item 403. Otherwise the item is removed, and the loop removes every stock record whose item id matches, which is exactly the item's own record. |
| Handlers.Market.SetStock | index.js:529-554 | Missing fields give 400. An item that is missing or of another merchant gives 404, and another user's item 403. Otherwise the stock record under the item's id is created or overwritten. |
| Seqs.Filter | index.js:620-625 | The result is never longer than the input, and every element in it passes. |
| Seqs.FilterCounts | index.js:620-625 | Keeps exactly the elements that pass, each as many times as it occurs. |
| Seqs.FilterAppend | index.js:620-625 | Filtering two lists joined is filtering each and joining the results, so the kept elements stay in their order. |
| Seqs.FilterSingle | index.js:620-625 | A one-element list keeps its element exactly when it passes. |
| Seqs.SumConcat | index.js:804-806 | The running total over two lists joined is the sum of their totals. |
| Seqs.SumPermutation | index.js:804-806 | The running total does not depend on the order of the elements. |
| Seqs.SortBy | index.js:627-636 | The result is sorted by the key and is a permutation of the input. |
| Search.Lower | index.js:621-623 | Lower-cases each ASCII letter, keeps the length, and leaves no upper-case letter. |
| Search.Includes | index.js:622-624 | True exactly when the needle occurs at some position of the haystack. |
| Search.Matching | index.js:588-625 | Exactly the products in a merchant of the category (when one is given) whose lower-cased name contains the lower-cased term (when one is given), with their multiplicities. |
| Search.MatchingKeepsOrder | index.js:588-625 | Matching two lists of products joined is matching each and joining the results: the filters keep list order. |
| Search.MatchingSingle | index.js:588-625 | A single product is kept exactly when it is in a merchant of the category and its name contains the term. |
| Search.NoMerchantNoMatch | index.js:589-597 | A category that no merchant has matches no product. |
| Search.SearchProducts | index.js:582-642 | A category with no merchant gives an empty list. The result is a permutation of the matching products. `termurah` is non-decreasing in price, `termahal` non-increasing, and any other value keeps the filtered order. |
| Search.Cheapest | index.js:629-631 | A list sorted by the price key has non-decreasing prices. |
| Search.Dearest | index.js:632-634 | A list sorted by the negated price key has non-increasing prices. |
| Dashboard.TotalSalesStep | index.js:804-806 | No orders give total sales 0. One more order adds its total exactly when its status is `completed`, and nothing otherwise. |
| Dashboard.TotalSalesIgnoresOrder | index.js:804-806 | Total sales, the sum of totals of completed orders, is the same for any reordering of the orders. |
| Dashboard.TotalSalesAppend | index.js:804-806 | Total sales over two lists of orders is the sum of their total sales. |
| Dashboard.OrdersByStatus | index.js:807-810 | Has a key exactly for each status that occurs, mapped to the positive number of orders with that status. |
| Dashboard.StatusCountsAddUp | index.js:807-810 | The per-status counts add up to the number of orders. |
| Dashboard.AddSale | index.js:811-819 | One reduce step. It adds one to the count of the order's item and the order's quantity to that item's total. If the item is new, it appends an entry with count 1. Other entries are untouched. |
| Dashboard.ProductSales | index.js:811-819 | One entry per item name, and every ordered item has an entry. Each entry's count is the number of orders naming it, its total quantity is the sum of their quantities, and its count is positive. |
| Dashboard.TopProducts | index.js:820-822 | At most five entries, min(5, n) exactly. Counts are non-increasing, entries are taken from the input, and no entry left out has a higher count than one kept. |
| Dashboard.Summarize | index.js:803-827 | The corrected dashboard: it uses `ProductSales`, which counts every item name, where the route as written drops inherited names. Its parts are `TotalSales`, `OrdersByStatus` and `TopProducts` of `ProductSales`. The per-status counts add up to the number of orders. There are at most five top products, each with its exact positive count and total quantity. |
| Dashboard.AddSaleAsWritten | index.js:811-819 | The reduce step as written on a plain object. An existing entry for the order's item gains one order and the order's quantity, unless the name is an inherited object property. A new entry with count 1 is appended exactly when the name is not inherited and has no entry yet. Every other entry is unchanged, and entries stay distinct. |
| Dashboard.ProductSalesAsWritten | index.js:811-819 | The reduce as written on a plain object. Its entries stay distinct. |
| Dashboard.AsWrittenIsFiltered | index.js:811-819 | The reduce as written equals the corrected `ProductSales` over only the orders whose item name is not an inherited property. |
| Dashboard.CountOwnKeys | index.js:811-819 | Dropping the orders with inherited item names leaves the order count and quantity of every other name unchanged. |
| Dashboard.AsWrittenDropsInherited | index.js:811-819 | As written, no entry has an inherited item name. Every other entry has its exact order count and quantity, and every other ordered name has an entry. |
| Dashboard.InheritedItemNameIsDropped | index.js:811-822 | One completed order for an item named `toString` yields no product sales and no top product as written. `ProductSales` counts it. |

## Left out

- Bearer-token verification (`verifyToken`) and JWT handling: the caller is a given user id.
- Photo and payment-proof uploads to the image service: the payment proof is a boolean "uploaded", and photo URLs are not stored.
- Creation and update timestamps are not modelled.
- A merchant's location (`lat`, `lng`) is only checked for presence and is not stored in `Merchant`, and neither is its photo URL.
- `parseInt`/`parseFloat` on form strings, and `NaN`: quantities and prices arrive as already-parsed integers or as absent. A numeric field sent as the number 0 counts as absent in JavaScript; the model treats absence only as `None`.
- Prices are integers rather than floating-point numbers, so totals are exact.
- Lower-casing covers ASCII letters only. Unicode case mapping is not modelled.
- Firestore query mechanics: the `in` filter's size limit, batches, and the ordering of query results. Search takes its stock records, already joined with their items, as a list.
- Search joins each stock record with its item. A stock record whose item is missing cannot occur under the store invariant, so that join (and the failure of the name filter on it) is not modelled.
- The dashboard's `merchantId` and ownership checks (400/403) and its query are left out. Only the aggregation over the merchant's orders is modelled.
- Object keys that look like array indices come first in `Object.values`. So `ProductSales` lists items by first appearance only when no item name is such a key. `TopProducts` promises nothing that depends on that order.
- Registration, login, profile, merchant and item listings, cart and order listings, and messaging routes: read-only assembly or plain writes with no rule to state.
- Store and image-service writes never fail in the model, and every route's writes happen together. `Market.Valid` holds only on that assumption. In the code, a failure between two writes leaves a partial state: the item written without its stock record (index.js:387-404), the order written without lowering the stock (index.js:702-722), or the item deleted while its stock record stays (index.js:466-474).
- `ordersByStatus` counts on a plain object too, so a status named like an inherited property would be miscounted. This does not arise in the model, because `Market.Valid` admits only the initial status and the four route statuses, none of which is such a name.
- Requests are handled one at a time. The race between the stock check and the stock update of concurrent orders is a concurrency concern and is not modelled.
- Handlers.Market.constructor: the store starts empty apart from user roles, which are assigned outside the API.

## Findings

| source | as written | input that shows it | evidently intended | confidence | as-written member | corrected member |
|---|---|---|---|---|---|---|
| index.js:811-822 | `productSales` is a plain object, and `!acc[key]` is false for names inherited from `Object.prototype`. So those orders never get an own entry, and `Object.values` leaves them out. | one completed order for an item named `toString` (or `constructor`, `valueOf`, `__proto__`, …) | every item name gets its own entry with its order count and quantity | not executed | Dashboard.InheritedItemNameIsDropped | Dashboard.ProductSales |
