/**
 * The storefront's records (types/index.ts), normalised to one shape each: an order has one
 * key (`id`, which stands for the legacy `orderId || id`), flat customer fields and one item
 * list. Money is `real`; a timestamp is the millisecond count `Date` would parse it to.
 */
module Domain {
  import opened Wrappers
  import opened Seqs

  /** A catalogue product as the API returns it. */
  datatype Product = Product(
    id: string,
    name: string,
    description: string,
    price: real,
    originalPrice: Option<real>,
    discount: Option<real>,
    image: string,
    category: string,
    inStock: bool,
    createdAt: int,
    updatedAt: int)

  /** A cart line; the cart store that owns these is outside the model. */
  datatype CartItem = CartItem(productId: string, name: string, price: real, quantity: int, image: string)

  datatype Address = Address(line1: string, line2: string, city: string, postcode: string, country: string)

  /** The checkout form's fields. */
  datatype CheckoutForm = CheckoutForm(name: string, email: string, phone: string, address: Address)

  /** Every order status any page of the storefront uses ('confirmed' only in the order-management page). */
  datatype Status =
    | Pending | Processing | Shipped | Delivered | Cancelled
    | Reviewing | Accepted | Fulfilled | Rejected | Confirmed

  /** The status as the string stored in the database. */
  function StatusName(s: Status): string
  {
    match s
    case Pending => "pending"
    case Processing => "processing"
    case Shipped => "shipped"
    case Delivered => "delivered"
    case Cancelled => "cancelled"
    case Reviewing => "reviewing"
    case Accepted => "accepted"
    case Fulfilled => "fulfilled"
    case Rejected => "rejected"
    case Confirmed => "confirmed"
  }

  /** Distinct statuses have distinct names, so comparing names compares statuses. */
  lemma StatusNameInjective(s: Status, t: Status)
    ensures StatusName(s) == StatusName(t) <==> s == t
  {
  }

  /** One ordered product: a snapshot of id, quantity and unit price. */
  datatype OrderLine = OrderLine(productId: string, quantity: int, price: real)

  /** The one normalised order record. */
  datatype Order = Order(
    id: string,
    customerName: string,
    customerEmail: string,
    status: Status,
    subtotal: real,
    total: real,
    createdAt: int,
    items: seq<OrderLine>)

  /** The admin product shape of lib/mock-data.ts and the admin products page. */
  datatype AdminProduct = AdminProduct(
    id: string,
    title: string,
    slug: string,
    description: string,
    price: real,
    images: seq<string>,
    productType: string,
    stock: int,
    createdAt: string)

  /** How many of `statuses` fall into `bucket` (`filter(...).length`). */
  function CountIn(statuses: seq<Status>, bucket: set<Status>): (n: nat)
    ensures n <= |statuses|
  {
    if statuses == [] then 0
    else CountIn(statuses[..|statuses| - 1], bucket) + (if statuses[|statuses| - 1] in bucket then 1 else 0)
  }

  /** Counting into two disjoint buckets is counting into their union. */
  lemma {:induction false} CountDisjointUnion(statuses: seq<Status>, a: set<Status>, b: set<Status>)
    requires a !! b
    ensures CountIn(statuses, a) + CountIn(statuses, b) == CountIn(statuses, a + b)
  {
    if statuses != [] {
      CountDisjointUnion(statuses[..|statuses| - 1], a, b);
    }
  }

  /** One more status adds one to exactly the buckets it falls into. */
  lemma CountInSnoc(statuses: seq<Status>, s: Status, bucket: set<Status>)
    ensures CountIn(statuses + [s], bucket) == CountIn(statuses, bucket) + (if s in bucket then 1 else 0)
  {
    assert (statuses + [s])[..|statuses|] == statuses;
  }

  /** The count is the length of the filtered list, `filter(s => bucket has s).length`. */
  lemma {:induction false} CountInIsFilterLength(statuses: seq<Status>, bucket: set<Status>)
    ensures CountIn(statuses, bucket) == |Filter(statuses, (s: Status) => s in bucket)|
  {
    if statuses != [] {
      var init := statuses[..|statuses| - 1];
      var last := statuses[|statuses| - 1];
      assert statuses == init + [last];
      CountInIsFilterLength(init, bucket);
      FilterAppend(init, [last], (s: Status) => s in bucket);
      assert [last][1..] == [];
    }
  }

  /** A bucket that every status falls into counts them all. */
  lemma {:induction false} CountAll(statuses: seq<Status>, bucket: set<Status>)
    requires forall i :: 0 <= i < |statuses| ==> statuses[i] in bucket
    ensures CountIn(statuses, bucket) == |statuses|
  {
    if statuses != [] {
      CountAll(statuses[..|statuses| - 1], bucket);
    }
  }

  /** A bucket that no status falls into counts nothing. */
  lemma {:induction false} CountMissing(statuses: seq<Status>, bucket: set<Status>)
    requires forall i :: 0 <= i < |statuses| ==> statuses[i] !in bucket
    ensures CountIn(statuses, bucket) == 0
  {
    if statuses != [] {
      CountMissing(statuses[..|statuses| - 1], bucket);
    }
  }

  /** The statuses of a list of orders, in order. */
  function StatusesOf(orders: seq<Order>): (r: seq<Status>)
    ensures |r| == |orders| && forall i :: 0 <= i < |orders| ==> r[i] == orders[i].status
  {
    seq(|orders|, i requires 0 <= i < |orders| => orders[i].status)
  }

  lemma StatusesOfSnoc(orders: seq<Order>, o: Order)
    ensures StatusesOf(orders + [o]) == StatusesOf(orders) + [o.status]
  {
  }
}
