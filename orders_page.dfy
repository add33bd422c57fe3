/**
 * The admin orders page (components/admin/OrdersPage.tsx): the merged and de-duplicated
 * order list, the search and status filter, the actions offered per status, the status
 * update after the PATCH request, and the bucket counts. The stored orders and the request's
 * outcome are parameters.
 */
module OrdersPage {
  import opened Wrappers
  import opened Text
  import opened Seqs
  import opened Sorting
  import opened Domain
  import Checkout

  /** Index `i` holds the first order with its id (`index === self.findIndex(...)`). */
  predicate IsFirst(s: seq<Order>, i: int)
    requires 0 <= i < |s|
  {
    forall j :: 0 <= j < i ==> s[j].id != s[i].id
  }

  /** The orders whose ids occur for the first time, in their order. */
  function Dedupe(s: seq<Order>): (r: seq<Order>)
    ensures forall o :: o in r ==> o in s
    ensures forall i, j :: 0 <= i < j < |r| ==> r[i].id != r[j].id
  {
    if s == [] then []
    else
      var prefix := s[..|s| - 1];
      var r := Dedupe(prefix);
      assert forall o :: o in r ==> o in prefix;
      if IsFirst(s, |s| - 1) then
        assert forall o :: o in r ==> o.id != s[|s| - 1].id;
        r + [s[|s| - 1]]
      else r
  }

  /** The kept orders are exactly the first occurrences: each kept order is one, and each one is kept. */
  lemma {:induction false} DedupeKeepsFirsts(s: seq<Order>)
    ensures forall i :: 0 <= i < |s| && IsFirst(s, i) ==> s[i] in Dedupe(s)
    ensures forall o :: o in Dedupe(s) ==> exists i :: 0 <= i < |s| && IsFirst(s, i) && s[i] == o
  {
    if s != [] {
      var prefix := s[..|s| - 1];
      DedupeKeepsFirsts(prefix);
      forall i | 0 <= i < |prefix| ensures IsFirst(prefix, i) == IsFirst(s, i) {
      }
      forall o | o in Dedupe(s) ensures exists i :: 0 <= i < |s| && IsFirst(s, i) && s[i] == o {
        if o in Dedupe(prefix) {
          var i :| 0 <= i < |prefix| && IsFirst(prefix, i) && prefix[i] == o;
          assert s[i] == o && IsFirst(s, i);
        } else {
          assert IsFirst(s, |s| - 1) && s[|s| - 1] == o;
        }
      }
    }
  }

  /** Every id of the input survives de-duplication. */
  lemma DedupeKeepsEveryId(s: seq<Order>, o: Order)
    requires o in s
    ensures exists q :: q in Dedupe(s) && q.id == o.id
  {
    DedupeKeepsFirsts(s);
    var i :| 0 <= i < |s| && s[i] == o;
    var first := FirstIndex(s, o.id, i);
    assert s[first] in Dedupe(s);
  }

  /** The first index at or below `i` holding the id that `s[i]` has. */
  function FirstIndex(s: seq<Order>, id: string, i: int): (k: int)
    requires 0 <= i < |s| && s[i].id == id
    ensures 0 <= k <= i && s[k].id == id && IsFirst(s, k)
    decreases i
  {
    if IsFirst(s, i) then i
    else
      var j :| 0 <= j < i && s[j].id == s[i].id;
      FirstIndex(s, id, j)
  }

  /** A mock order wins over a stored order with the same id. */
  lemma MockOrderWins(mock: seq<Order>, stored: seq<Order>, o: Order)
    requires o in Dedupe(mock + stored)
    requires exists m :: m in mock && m.id == o.id
    ensures o in mock
  {
    var s := mock + stored;
    DedupeKeepsFirsts(s);
    var i :| 0 <= i < |s| && IsFirst(s, i) && s[i] == o;
    var m :| m in mock && m.id == o.id;
    var j :| 0 <= j < |mock| && mock[j] == m;
    assert s[j].id == o.id;
    assert i <= j;
    assert s[i] == mock[i];
  }

  /** `new Date(b.createdAt) - new Date(a.createdAt)`: newest first. */
  function NewestFirst(): (Order, Order) -> bool {
    (a: Order, b: Order) => b.createdAt <= a.createdAt
  }

  function OrderId(o: Order): string { o.id }

  /** What the page loads: mock orders then stored ones, de-duplicated, newest first. */
  function Loaded(mock: seq<Order>, stored: seq<Order>): seq<Order> {
    Sort(Dedupe(mock + stored), NewestFirst())
  }

  /** The loaded list has unique ids, keeps every id of either source, and is newest first. */
  lemma LoadedSpec(mock: seq<Order>, stored: seq<Order>)
    ensures var r := Loaded(mock, stored);
      && DistinctKeys(r, OrderId)
      && (forall o :: o in r ==> o in mock + stored)
      && (forall o :: o in mock + stored ==> exists q :: q in r && q.id == o.id)
      && SortedBy(r, NewestFirst())
  {
    var d := Dedupe(mock + stored);
    SortDistinct(d, NewestFirst(), OrderId);
    SortSorted(d, NewestFirst());
    forall o | o in Sort(d, NewestFirst()) ensures o in mock + stored {
      SortKeepsElements(d, NewestFirst(), o);
    }
    forall o | o in mock + stored ensures exists q :: q in Sort(d, NewestFirst()) && q.id == o.id {
      DedupeKeepsEveryId(mock + stored, o);
      var q :| q in d && q.id == o.id;
      SortKeepsElements(d, NewestFirst(), q);
    }
  }

  /** The lower-cased query occurs in the lower-cased id, customer name or e-mail. */
  predicate MatchesSearch(o: Order, query: string) {
    var q := Lower(query);
    Contains(Lower(o.id), q) || Contains(Lower(o.customerName), q) || Contains(Lower(o.customerEmail), q)
  }

  /** The status filter is 'all' or the order's status name. */
  predicate MatchesStatus(o: Order, statusFilter: string) {
    statusFilter == "all" || StatusName(o.status) == statusFilter
  }

  /** `filteredOrders`: the orders that pass both tests, in list order. */
  function FilteredOrders(orders: seq<Order>, query: string, statusFilter: string): (r: seq<Order>)
    ensures forall o :: o in r <==> o in orders && MatchesSearch(o, query) && MatchesStatus(o, statusFilter)
  {
    Filter(orders, o => MatchesSearch(o, query) && MatchesStatus(o, statusFilter))
  }

  /** An empty query with filter 'all' shows every order, in order. */
  lemma NoFilterShowsAll(orders: seq<Order>)
    ensures FilteredOrders(orders, "", "all") == orders
  {
    forall o | o in orders ensures MatchesSearch(o, "") {
      ContainsEmpty(Lower(o.id));
    }
    FilterAll(orders, o => MatchesSearch(o, "") && MatchesStatus(o, "all"));
  }

  /** The buttons shown for an order: Accept/Reject while reviewing, Mark Fulfilled once accepted. */
  function OfferedActions(s: Status): (r: seq<Status>)
    ensures |r| > 0 <==> s == Reviewing || s == Accepted
    ensures s == Reviewing ==> r == [Accepted, Rejected]
    ensures s == Accepted ==> r == [Fulfilled]
  {
    match s
    case Reviewing => [Accepted, Rejected]
    case Accepted => [Fulfilled]
    case _ => []
  }

  /** The actions never lead back to a status that offers them: at most two steps end every path. */
  lemma ActionsEndInTwoSteps(s: Status, t: Status, u: Status)
    requires t in OfferedActions(s) && u in OfferedActions(t)
    ensures s == Reviewing && t == Accepted && u == Fulfilled && OfferedActions(u) == []
  {
  }

  /**
   * The checkout page stores new orders as 'pending', and this page offers no action for
   * 'pending', so an order placed at checkout cannot be moved on from here.
   */
  lemma CheckoutOrdersHaveNoActions(orderId: string, f: CheckoutForm, cart: seq<CartItem>, subtotal: real, now: string)
    ensures OfferedActions(Checkout.StoredOrderOf(orderId, f, cart, subtotal, now).status) == []
  {
  }

  /** `{ ...order, status }` for every order with the key; every other order as it was. */
  function Patched(orders: seq<Order>, key: string, newStatus: Status): (r: seq<Order>)
    ensures |r| == |orders|
    ensures forall i :: 0 <= i < |orders| && orders[i].id == key ==> r[i] == orders[i].(status := newStatus)
    ensures forall i :: 0 <= i < |orders| && orders[i].id != key ==> r[i] == orders[i]
  {
    seq(|orders|, i requires 0 <= i < |orders| =>
      if orders[i].id == key then orders[i].(status := newStatus) else orders[i])
  }

  /** The open order after an update: patched when its key matches, as it was otherwise. */
  function PatchedSelection(selected: Option<Order>, key: string, newStatus: Status): (r: Option<Order>)
    ensures selected.None? ==> r.None?
    ensures selected.Some? && selected.value.id == key ==> r == Some(selected.value.(status := newStatus))
    ensures selected.Some? && selected.value.id != key ==> r == selected
  {
    if selected.Some? && selected.value.id == key then Some(selected.value.(status := newStatus)) else selected
  }

  /** The reply to the PATCH request: ok, not ok, or an exception. */
  datatype UpdateOutcome = Ok | NotOk | Threw

  /** The bucket counts shown above the list. */
  datatype OrderStats = OrderStats(total: nat, reviewing: nat, accepted: nat, fulfilled: nat, rejected: nat)

  const ReviewingBucket: set<Status> := {Reviewing, Pending}
  const AcceptedBucket: set<Status> := {Accepted, Processing}
  const FulfilledBucket: set<Status> := {Fulfilled, Delivered}
  const RejectedBucket: set<Status> := {Rejected, Cancelled}

  function Stats(orders: seq<Order>): OrderStats {
    var st := StatusesOf(orders);
    OrderStats(|orders|, CountIn(st, ReviewingBucket), CountIn(st, AcceptedBucket),
      CountIn(st, FulfilledBucket), CountIn(st, RejectedBucket))
  }

  /** The four buckets are disjoint, so together they count at most every order once. */
  lemma StatsAtMostTotal(orders: seq<Order>)
    ensures var s := Stats(orders); s.reviewing + s.accepted + s.fulfilled + s.rejected <= s.total
  {
    var st := StatusesOf(orders);
    CountDisjointUnion(st, ReviewingBucket, AcceptedBucket);
    CountDisjointUnion(st, ReviewingBucket + AcceptedBucket, FulfilledBucket);
    CountDisjointUnion(st, ReviewingBucket + AcceptedBucket + FulfilledBucket, RejectedBucket);
  }

  /** One more order adds one to the total and one to exactly the bucket of its status. */
  lemma StatsAddsOrder(orders: seq<Order>, o: Order)
    ensures var s0 := Stats(orders); var s1 := Stats(orders + [o]);
      && s1.total == s0.total + 1
      && s1.reviewing == s0.reviewing + (if o.status in {Reviewing, Pending} then 1 else 0)
      && s1.accepted == s0.accepted + (if o.status in {Accepted, Processing} then 1 else 0)
      && s1.fulfilled == s0.fulfilled + (if o.status in {Fulfilled, Delivered} then 1 else 0)
      && s1.rejected == s0.rejected + (if o.status in {Rejected, Cancelled} then 1 else 0)
  {
    var st := StatusesOf(orders);
    StatusesOfSnoc(orders, o);
    CountInSnoc(st, o.status, ReviewingBucket);
    CountInSnoc(st, o.status, AcceptedBucket);
    CountInSnoc(st, o.status, FulfilledBucket);
    CountInSnoc(st, o.status, RejectedBucket);
  }

  /** Shipped and confirmed orders fall into no bucket. */
  lemma UncountedStatuses(orders: seq<Order>)
    requires forall o :: o in orders ==> o.status == Shipped || o.status == Confirmed
    ensures var s := Stats(orders); s.reviewing == 0 && s.accepted == 0 && s.fulfilled == 0 && s.rejected == 0
  {
    var st := StatusesOf(orders);
    assert forall i :: 0 <= i < |st| ==> st[i] == orders[i].status && orders[i] in orders;
    CountMissing(st, ReviewingBucket);
    CountMissing(st, AcceptedBucket);
    CountMissing(st, FulfilledBucket);
    CountMissing(st, RejectedBucket);
  }

  class OrdersView {
    var orders: seq<Order>
    var selected: Option<Order>
    /** Never set to true anywhere, so the action buttons are never disabled. */
    var isUpdating: bool

    predicate Valid()
      reads this
    {
      !isUpdating
    }

    /** Mounting: the merged list, no order open. */
    constructor (mock: seq<Order>, stored: seq<Order>)
      ensures Valid()
      ensures orders == Loaded(mock, stored) && selected == None
    {
      orders := Loaded(mock, stored);
      selected := None;
      isUpdating := false;
    }

    /** The View button. */
    method Select(o: Order)
      requires Valid()
      modifies this
      ensures Valid()
      ensures selected == Some(o) && orders == old(orders)
    {
      selected := Some(o);
    }

    /**
     * `handleStatusUpdate`: on an ok reply every order with the key gets the new status and
     * the open order does too when its key matches; any other reply changes nothing.
     */
    method HandleStatusUpdate(key: string, newStatus: Status, outcome: UpdateOutcome)
      requires Valid()
      modifies this
      ensures Valid()
      ensures outcome != Ok ==> orders == old(orders) && selected == old(selected)
      ensures outcome == Ok ==> orders == Patched(old(orders), key, newStatus)
      ensures outcome == Ok ==> selected == PatchedSelection(old(selected), key, newStatus)
    {
      if outcome != Ok {
        return;
      }
      orders := Patched(orders, key, newStatus);
      if selected.Some? && selected.value.id == key {
        selected := Some(selected.value.(status := newStatus));
      }
    }
  }

  /** A status update keeps the list's length, its ids and their order. */
  lemma PatchKeepsIds(orders: seq<Order>, key: string, newStatus: Status)
    ensures var r := Patched(orders, key, newStatus);
      |r| == |orders| && forall i :: 0 <= i < |r| ==> r[i].id == orders[i].id && r[i].createdAt == orders[i].createdAt
  {
  }
}
