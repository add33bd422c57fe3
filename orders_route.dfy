/**
 * The orders API (app/api/orders/route.ts) over an abstract two-table store: POST checks the
 * body, inserts the order row, inserts its item rows, and deletes the order again when the
 * items fail; GET lists the orders, narrowed to one user when a user id is given. The
 * database's outcomes, the new row's id and its creation time are parameters.
 */
module OrdersApi {
  import opened Wrappers
  import opened Text
  import opened Json
  import opened Seqs
  import opened Sorting
  import Checkout
  import Domain

  /** One element of the body's `items` array; each field may be absent. */
  datatype ItemBody = ItemBody(productId: Option<string>, quantity: Option<int>, price: Option<real>)

  /** The fields POST reads from the JSON body. `items` is None when absent or not an array. */
  datatype OrderBody = OrderBody(
    userId: Option<string>,
    customerName: Option<string>,
    customerEmail: Option<string>,
    customerPhone: Option<string>,
    shippingAddress: Option<string>,
    paymentMethod: Option<string>,
    items: Option<seq<ItemBody>>,
    subtotal: Option<real>,
    shipping: Option<real>,
    total: Option<real>)

  /** A row of the orders table. */
  datatype OrderRow = OrderRow(
    id: string,
    userId: Option<string>,
    customerName: string,
    customerEmail: string,
    customerPhone: Option<string>,
    shippingAddress: string,
    paymentMethod: string,
    subtotal: Option<real>,
    shipping: Option<real>,
    total: Option<real>,
    status: string,
    createdAt: int)

  /** A row of the order_items table. */
  datatype ItemRow = ItemRow(orderId: string, productId: Option<string>, quantity: Option<int>, price: Option<real>)

  datatype OrdersResponse =
    | Failure(status: int, error: string)
    | Created(status: int, order: OrderRow)
    | Listed(orders: seq<OrderRow>)

  const MissingFields := "Missing required fields: customerName, customerEmail, shippingAddress, items"
  const OrderFailed := "Failed to create order"
  const ItemsFailed := "Failed to create order items"
  const FetchFailed := "Failed to fetch orders"
  const InternalError := "Internal server error"

  /** Name, e-mail and address are truthy and items is a non-empty array; the phone is optional. */
  predicate Acceptable(b: OrderBody) {
    Truthy(b.customerName) && Truthy(b.customerEmail) && Truthy(b.shippingAddress)
    && b.items.Some? && |b.items.value| > 0
  }

  /** The early returns of POST: an unreadable body is 500, a body missing a required field 400. */
  function BodyCheck(body: Option<OrderBody>): (r: Option<OrdersResponse>)
    ensures r.None? <==> body.Some? && Acceptable(body.value)
    ensures body.None? ==> r == Some(Failure(500, InternalError))
    ensures body.Some? && !Acceptable(body.value) ==> r == Some(Failure(400, MissingFields))
  {
    if body.None? then Some(Failure(500, InternalError))
    else if !Acceptable(body.value) then Some(Failure(400, MissingFields))
    else None
  }

  /**
   * The new order row: status 'pending', payment method defaulting to 'pending', user id null
   * unless truthy, and the amounts stored exactly as sent.
   */
  function RowOf(id: string, now: int, b: OrderBody): (r: OrderRow)
    requires Acceptable(b)
    ensures r.id == id && r.status == "pending"
    ensures r.paymentMethod == StringOr(b.paymentMethod, "pending")
    ensures r.userId == (if Truthy(b.userId) then b.userId else None)
    ensures r.subtotal == b.subtotal && r.shipping == b.shipping && r.total == b.total
    ensures r.customerName == b.customerName.value && r.customerEmail == b.customerEmail.value
    ensures r.shippingAddress == b.shippingAddress.value && r.customerPhone == b.customerPhone
  {
    OrderRow(id, if Truthy(b.userId) then b.userId else None, b.customerName.value, b.customerEmail.value,
      b.customerPhone, b.shippingAddress.value, StringOr(b.paymentMethod, "pending"),
      b.subtotal, b.shipping, b.total, "pending", now)
  }

  /** One item row per body item, in order, each pointing at the order. */
  function ItemRows(orderId: string, items: seq<ItemBody>): (r: seq<ItemRow>)
    ensures |r| == |items|
    ensures forall i :: 0 <= i < |items| ==>
      r[i] == ItemRow(orderId, items[i].productId, items[i].quantity, items[i].price)
  {
    seq(|items|, i requires 0 <= i < |items| => ItemRow(orderId, items[i].productId, items[i].quantity, items[i].price))
  }

  /** `delete().eq('id', id)`: every order row with that id removed. */
  function WithoutOrder(orders: seq<OrderRow>, id: string): (r: seq<OrderRow>)
    ensures forall o :: o in r <==> o in orders && o.id != id
  {
    Filter(orders, (o: OrderRow) => o.id != id)
  }

  /** Deleting a freshly appended row by its id, when no older row shares the id, restores the table. */
  lemma RollbackRestores(orders: seq<OrderRow>, row: OrderRow)
    requires forall o :: o in orders ==> o.id != row.id
    ensures WithoutOrder(orders + [row], row.id) == orders
  {
    var keep := (o: OrderRow) => o.id != row.id;
    FilterAppend(orders, [row], keep);
    FilterAll(orders, keep);
    assert Filter([row], keep) == [];
  }

  /** GET's narrowing: rows of the given user when the parameter is truthy, every row otherwise. */
  predicate ListedFor(o: OrderRow, userId: Option<string>) {
    !Truthy(userId) || o.userId == userId
  }

  /** `order('created_at', descending)`. */
  function NewestFirst(): (OrderRow, OrderRow) -> bool {
    (a: OrderRow, b: OrderRow) => b.createdAt <= a.createdAt
  }

  lemma NewestFirstIsTotalPreorder()
    ensures TotalPreorder(NewestFirst())
  {
  }

  class OrderStore {
    /** The orders table. */
    var orders: seq<OrderRow>
    /** The order_items table. */
    var items: seq<ItemRow>

    constructor (orders0: seq<OrderRow>, items0: seq<ItemRow>)
      ensures orders == orders0 && items == items0
    {
      orders := orders0;
      items := items0;
    }

    /**
     * POST. Refused requests and a failed order insert change nothing (no item insert is
     * tried). A failed item insert leaves the item table as it was and deletes the new
     * order, unless that delete itself fails, which goes unnoticed. Success is 201 with the
     * stored row.
     */
    method Post(body: Option<OrderBody>, newId: string, now: int,
                orderInsertFails: bool, itemsInsertFails: bool, deleteFails: bool)
      returns (response: OrdersResponse)
      modifies this
      ensures BodyCheck(body).Some? ==>
        response == BodyCheck(body).value && orders == old(orders) && items == old(items)
      ensures BodyCheck(body).None? && orderInsertFails ==>
        response == Failure(500, OrderFailed) && orders == old(orders) && items == old(items)
      ensures BodyCheck(body).None? && !orderInsertFails && !itemsInsertFails ==>
        && orders == old(orders) + [RowOf(newId, now, body.value)]
        && items == old(items) + ItemRows(newId, body.value.items.value)
        && response == Created(201, RowOf(newId, now, body.value))
      ensures BodyCheck(body).None? && !orderInsertFails && itemsInsertFails ==>
        && response == Failure(500, ItemsFailed) && items == old(items)
        && orders == (if deleteFails then old(orders) + [RowOf(newId, now, body.value)]
                      else WithoutOrder(old(orders) + [RowOf(newId, now, body.value)], newId))
    {
      var check := BodyCheck(body);
      if check.Some? {
        return check.value;
      }
      var b := body.value;
      if orderInsertFails {
        return Failure(500, OrderFailed);
      }
      var row := RowOf(newId, now, b);
      orders := orders + [row];
      if itemsInsertFails {
        if !deleteFails {
          orders := WithoutOrder(orders, row.id);
        }
        return Failure(500, ItemsFailed);
      }
      items := items + ItemRows(row.id, b.items.value);
      response := Created(201, row);
    }

    /** GET: the rows for the user (all of them without one), newest first; a failed query is 500. */
    function Get(userId: Option<string>, queryFails: bool): (r: OrdersResponse)
      reads this
      ensures queryFails ==> r == Failure(500, FetchFailed)
      ensures !queryFails ==> r.Listed?
      ensures !queryFails ==> forall o :: o in r.orders <==> o in orders && ListedFor(o, userId)
      ensures !queryFails ==> SortedBy(r.orders, NewestFirst())
      ensures !queryFails ==> multiset(r.orders) == multiset(Filter(orders, (o: OrderRow) => ListedFor(o, userId)))
    {
      if queryFails then Failure(500, FetchFailed)
      else
        var matching := Filter(orders, (o: OrderRow) => ListedFor(o, userId));
        NewestFirstIsTotalPreorder();
        SortSorted(matching, NewestFirst());
        var listed := Sort(matching, NewestFirst());
        assert forall o :: o in listed <==> o in matching by {
          forall o ensures o in listed <==> o in matching {
            SortKeepsElements(matching, NewestFirst(), o);
          }
        }
        Listed(listed)
    }
  }

  /**
   * All or nothing: when the new id is fresh and the compensating delete succeeds, a POST
   * whose items fail leaves both tables as they were.
   */
  lemma FailedItemsLeaveNoOrder(orders: seq<OrderRow>, b: OrderBody, newId: string, now: int)
    requires Acceptable(b)
    requires forall o :: o in orders ==> o.id != newId
    ensures WithoutOrder(orders + [RowOf(newId, now, b)], newId) == orders
  {
    RollbackRestores(orders, RowOf(newId, now, b));
  }

  /** The body the checkout page sends, as this handler reads it (no user id). */
  function BodyOfPayload(p: Checkout.OrderPayload): OrderBody {
    OrderBody(None, Some(p.customerName), Some(p.customerEmail), Some(p.customerPhone),
      Some(p.shippingAddress), Some(p.paymentMethod),
      Some(seq(|p.items|, i requires 0 <= i < |p.items| =>
        ItemBody(Some(p.items[i].productId), Some(p.items[i].quantity), Some(p.items[i].price)))),
      Some(p.subtotal), Some(p.shipping), Some(p.total))
  }

  /**
   * What the checkout page sends after its own validation passes, for a non-empty cart,
   * passes this handler's checks and is stored as 'pending' with payment method 'pending'.
   */
  lemma CheckoutPayloadAccepted(f: Domain.CheckoutForm, cart: seq<Domain.CartItem>, subtotal: real, id: string, now: int)
    requires Checkout.Violations(f) == map[] && |cart| > 0
    ensures var b := BodyOfPayload(Checkout.Payload(f, cart, subtotal));
      && BodyCheck(Some(b)).None?
      && RowOf(id, now, b).status == "pending" && RowOf(id, now, b).paymentMethod == "pending"
  {
    Checkout.ValidIffAllRulesPass(f);
    Checkout.AllRulesPassIff(f);
    NonBlankIsNonEmpty(f.name);
    NonBlankIsNonEmpty(f.email);
    var p := Checkout.Payload(f, cart, subtotal);
    assert |p.items| == |cart|;
    var a := f.address;
    assert |p.shippingAddress| >= |a.line1 + ", "|;
    var b := BodyOfPayload(p);
    assert Acceptable(b);
  }
}
