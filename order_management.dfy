/**
 * The order-management page (components/admin/OrderManagementPage.tsx): the status action
 * graph, the colour of a status badge, and the fetch and update handlers over an abstract
 * orders table. Statuses are the raw strings this page reads from the table; the database's
 * outcomes are parameters.
 */
module OrderManagement {
  import opened Wrappers
  import opened Text
  import opened Sorting

  /** The buttons shown for a status, each naming the status it sets; exact string comparison. */
  function NextActions(status: string): (r: seq<string>)
    ensures status == "pending" ==> r == ["confirmed", "cancelled"]
    ensures status == "confirmed" ==> r == ["processing"]
    ensures status == "processing" ==> r == ["shipped"]
    ensures status == "shipped" ==> r == ["delivered"]
    ensures status !in {"pending", "confirmed", "processing", "shipped"} ==> r == []
  {
    if status == "pending" then ["confirmed", "cancelled"]
    else if status == "confirmed" then ["processing"]
    else if status == "processing" then ["shipped"]
    else if status == "shipped" then ["delivered"]
    else []
  }

  /** Only 'pending' offers two actions, and only 'pending' can lead to 'cancelled'. */
  lemma CancelOnlyFromPending(s: string)
    ensures |NextActions(s)| == 2 <==> s == "pending"
    ensures "cancelled" in NextActions(s) <==> s == "pending"
  {
  }

  /** How far along the lifecycle a status is; every action moves strictly forward. */
  function Rank(s: string): (n: nat)
    ensures n <= 4
  {
    if s == "confirmed" || s == "cancelled" then 1
    else if s == "processing" then 2
    else if s == "shipped" then 3
    else if s == "delivered" then 4
    else 0
  }

  /** The action graph is acyclic: an action always raises the rank. */
  lemma ActionsRaiseRank(s: string, t: string)
    requires t in NextActions(s)
    ensures Rank(s) < Rank(t)
  {
  }

  /** Consecutive statuses of a path are joined by an offered action. */
  predicate ValidPath(path: seq<string>) {
    forall i :: 0 <= i < |path| - 1 ==> path[i + 1] in NextActions(path[i])
  }

  const Lifecycle: seq<string> := ["pending", "confirmed", "processing", "shipped", "delivered"]

  /** A path from 'pending' either follows the lifecycle or cancels at once and stops there. */
  lemma {:induction false} PathsFromPending(path: seq<string>)
    requires |path| >= 1 && path[0] == "pending" && ValidPath(path)
    ensures path == [ "pending", "cancelled" ] || (|path| <= 5 && path == Lifecycle[..|path|])
  {
    var n := |path|;
    if n > 1 {
      var prefix := path[..n - 1];
      assert ValidPath(prefix) by {
        forall i | 0 <= i < |prefix| - 1 ensures prefix[i + 1] in NextActions(prefix[i]) {
          assert prefix[i] == path[i] && prefix[i + 1] == path[i + 1];
        }
      }
      PathsFromPending(prefix);
      assert path[n - 1] in NextActions(path[n - 2]);
      // a prefix that already ended in 'cancelled' cannot be extended
      if prefix != ["pending", "cancelled"] {
        assert path[n - 2] == Lifecycle[n - 2];
        assert path == prefix + [path[n - 1]];
        if n - 2 == 0 {
          assert path[1] in ["confirmed", "cancelled"];
        } else {
          assert n - 2 < 4;
          assert path[n - 1] == Lifecycle[n - 1];
        }
      }
    }
  }

  /** A status with no action is terminal. */
  predicate Terminal(s: string) {
    NextActions(s) == []
  }

  /**
   * From 'pending' the only ways to a terminal status are four actions to 'delivered' or
   * one to 'cancelled'.
   */
  lemma TerminalPathsFromPending(path: seq<string>)
    requires |path| >= 1 && path[0] == "pending" && ValidPath(path) && Terminal(path[|path| - 1])
    ensures path == Lifecycle || path == ["pending", "cancelled"]
  {
    PathsFromPending(path);
  }

  /** The badge colour: the status is lower-cased first, and anything unknown is gray. */
  function ColorOf(status: string): (c: string)
    ensures Lower(status) !in {"pending", "confirmed", "processing", "shipped", "delivered", "cancelled"} ==> c == "bg-gray-500"
  {
    var s := Lower(status);
    if s == "pending" then "bg-yellow-500"
    else if s == "confirmed" then "bg-blue-500"
    else if s == "processing" then "bg-purple-500"
    else if s == "shipped" then "bg-indigo-500"
    else if s == "delivered" then "bg-green-500"
    else if s == "cancelled" then "bg-red-500"
    else "bg-gray-500"
  }

  /** The colour does not depend on letter case. */
  lemma ColorIgnoresCase(status: string)
    ensures ColorOf(status) == ColorOf(Lower(status))
  {
    LowerIdempotent(status);
  }

  /** 'Pending' gets the pending colour, but no action, because the buttons compare exactly. */
  lemma CapitalisedPendingHasColourButNoActions()
    ensures ColorOf("Pending") == "bg-yellow-500" && NextActions("Pending") == []
  {
    assert Lower("Pending") == "pending";
  }

  /** A row of the orders table as this page reads it. */
  datatype ManagedOrder = ManagedOrder(id: string, status: string, createdAt: int)

  /** `order('created_at', { ascending: false })`. */
  function NewestFirst(): (ManagedOrder, ManagedOrder) -> bool {
    (a: ManagedOrder, b: ManagedOrder) => b.createdAt <= a.createdAt
  }

  /** `update({ status }).eq('id', id)`: every row with the id gets the status. */
  function WithStatus(table: seq<ManagedOrder>, id: string, status: string): (r: seq<ManagedOrder>)
    ensures |r| == |table|
    ensures forall i :: 0 <= i < |table| ==>
      r[i] == (if table[i].id == id then table[i].(status := status) else table[i])
  {
    seq(|table|, i requires 0 <= i < |table| => if table[i].id == id then table[i].(status := status) else table[i])
  }

  /** What the page renders. */
  datatype Screen = LoadingScreen | ErrorScreen(message: string) | OrderList(orders: seq<ManagedOrder>)

  class OrderManagementPage {
    /** The orders table in the database. */
    var table: seq<ManagedOrder>
    var orders: seq<ManagedOrder>
    var loading: bool
    var error: Option<string>
    /** The last alert shown, if any. */
    var alert: Option<string>

    constructor (table0: seq<ManagedOrder>)
      ensures table == table0 && orders == [] && loading && error == None && alert == None
    {
      table := table0;
      orders := [];
      loading := true;
      error := None;
      alert := None;
    }

    /** `fetchOrders`: the table newest first, or the query's error message; loading ends either way. */
    method FetchOrders(fails: bool, message: string)
      modifies this
      ensures !loading && table == old(table) && alert == old(alert)
      ensures !fails ==> orders == Sort(table, NewestFirst()) && error == old(error)
      ensures fails ==> orders == old(orders) && error == Some(message)
    {
      if fails {
        error := Some(message);
      } else {
        orders := Sort(table, NewestFirst());
      }
      loading := false;
    }

    /**
     * `updateOrderStatus`: a failed update shows an alert and changes neither the table nor
     * the list; a successful one updates the table and re-fetches the list.
     */
    method UpdateOrderStatus(id: string, newStatus: string, updateFails: bool, updateMessage: string,
                             fetchFails: bool, fetchMessage: string)
      modifies this
      ensures updateFails ==>
        && alert == Some("Failed to update order status: " + updateMessage)
        && table == old(table) && orders == old(orders) && error == old(error) && loading == old(loading)
      ensures !updateFails ==> table == WithStatus(old(table), id, newStatus) && alert == old(alert) && !loading
      ensures !updateFails && !fetchFails ==>
        orders == Sort(WithStatus(old(table), id, newStatus), NewestFirst()) && error == old(error)
      ensures !updateFails && fetchFails ==> orders == old(orders) && error == Some(fetchMessage)
    {
      if updateFails {
        alert := Some("Failed to update order status: " + updateMessage);
        return;
      }
      table := WithStatus(table, id, newStatus);
      FetchOrders(fetchFails, fetchMessage);
    }

    /** The loading message first, then the error, then the list. */
    function Render(): (s: Screen)
      reads this
      ensures loading ==> s == LoadingScreen
      ensures !loading && error.Some? ==> s == ErrorScreen(error.value)
      ensures !loading && error.None? ==> s == OrderList(orders)
    {
      if loading then LoadingScreen
      else if error.Some? then ErrorScreen(error.value)
      else OrderList(orders)
    }
  }

  /** After a successful update and re-fetch, the list holds the same orders with that one's status changed. */
  lemma RefetchShowsUpdate(table: seq<ManagedOrder>, id: string, newStatus: string, o: ManagedOrder)
    requires o in table && o.id == id
    ensures o.(status := newStatus) in Sort(WithStatus(table, id, newStatus), NewestFirst())
  {
    var i :| 0 <= i < |table| && table[i] == o;
    var t := WithStatus(table, id, newStatus);
    assert t[i] == o.(status := newStatus);
    SortKeepsElements(t, NewestFirst(), t[i]);
  }
}
