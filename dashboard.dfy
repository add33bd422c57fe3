/**
 * The dashboard API (app/api/dashboard/route.ts): bucket counts and revenue over the orders
 * table, the five most recent orders and up to five out-of-stock products. Each of the four
 * queries' results, and whether it failed, is a parameter.
 */
module Dashboard {
  import opened Wrappers
  import opened Json
  import opened Seqs
  import opened Text
  import opened Domain

  /** `select('status, total')`: a row of the orders table; the total may be null. */
  datatype StatusRow = StatusRow(status: Status, total: Option<real>)

  /** A row of the recent-orders query. */
  datatype RecentOrder = RecentOrder(id: string, customerName: string, status: Status, total: Option<real>, createdAt: int)

  /** A row of the out-of-stock query. */
  datatype StockRow = StockRow(id: string, name: string, price: real, inStock: bool)

  /** What a query returned: an error, or data that may be null. */
  datatype Query<T> = QueryError | Data(rows: Option<T>)

  datatype DashboardStats = DashboardStats(
    totalProducts: nat,
    pendingOrders: nat,
    acceptedOrders: nat,
    fulfilledOrders: nat,
    rejectedOrders: nat,
    totalRevenue: real,
    recentOrders: seq<RecentOrder>,
    lowStockProducts: seq<StockRow>)

  datatype DashboardResponse = Failure(status: int, error: string) | Stats(stats: DashboardStats)

  const FetchFailed := "Failed to fetch dashboard data"

  const PendingBucket: set<Status> := {Pending, Reviewing}
  const AcceptedBucket: set<Status> := {Accepted}
  const FulfilledBucket: set<Status> := {Fulfilled, Delivered}
  const RejectedBucket: set<Status> := {Rejected, Cancelled}

  function StatusesOfRows(rows: seq<StatusRow>): (r: seq<Status>)
    ensures |r| == |rows| && forall i :: 0 <= i < |rows| ==> r[i] == rows[i].status
  {
    seq(|rows|, i requires 0 <= i < |rows| => rows[i].status)
  }

  lemma StatusesOfRowsSnoc(rows: seq<StatusRow>, x: StatusRow)
    ensures StatusesOfRows(rows + [x]) == StatusesOfRows(rows) + [x.status]
  {
  }

  /** `reduce((sum, o) => sum + (o.total || 0), 0)`. */
  function SumTotals(rows: seq<StatusRow>): real {
    if rows == [] then 0.0
    else SumTotals(rows[..|rows| - 1]) + NumberOr(rows[|rows| - 1].total, 0.0)
  }

  lemma {:induction false} SumTotalsAppend(a: seq<StatusRow>, b: seq<StatusRow>)
    ensures SumTotals(a + b) == SumTotals(a) + SumTotals(b)
  {
    if b == [] {
      assert a + b == a;
    } else {
      assert (a + b)[..|a + b| - 1] == a + b[..|b| - 1];
      assert (a + b)[|a + b| - 1] == b[|b| - 1];
      SumTotalsAppend(a, b[..|b| - 1]);
    }
  }

  predicate IsFulfilled(r: StatusRow) {
    r.status in FulfilledBucket
  }

  /** Revenue: the totals of the fulfilled and delivered orders, a missing total counting as 0. */
  function Revenue(rows: seq<StatusRow>): real {
    SumTotals(Filter(rows, IsFulfilled))
  }

  /** Revenue adds up over any split of the table. */
  lemma RevenueAppend(a: seq<StatusRow>, b: seq<StatusRow>)
    ensures Revenue(a + b) == Revenue(a) + Revenue(b)
  {
    FilterAppend(a, b, IsFulfilled);
    SumTotalsAppend(Filter(a, IsFulfilled), Filter(b, IsFulfilled));
  }

  /** Revenue of one row: its total (or 0) when fulfilled or delivered, nothing otherwise. */
  lemma RevenueOfOne(r: StatusRow)
    ensures Revenue([r]) == if IsFulfilled(r) then NumberOr(r.total, 0.0) else 0.0
  {
    assert [r][1..] == [];
    assert Filter([r][1..], IsFulfilled) == [];
    if IsFulfilled(r) {
      assert Filter([r], IsFulfilled) == [r];
      assert [r][..0] == [];
      assert SumTotals([r]) == SumTotals([]) + NumberOr(r.total, 0.0);
    } else {
      assert Filter([r], IsFulfilled) == [];
    }
  }

  /** With no negative totals the revenue is never negative and never above the sum of all totals. */
  lemma {:induction false} RevenueBounds(rows: seq<StatusRow>)
    requires forall r :: r in rows && r.total.Some? ==> r.total.value >= 0.0
    ensures 0.0 <= Revenue(rows) <= SumTotals(rows)
  {
    if rows != [] {
      var prefix := rows[..|rows| - 1];
      var last := rows[|rows| - 1];
      assert rows == prefix + [last];
      assert forall r :: r in prefix ==> r in rows;
      RevenueBounds(prefix);
      RevenueAppend(prefix, [last]);
      RevenueOfOne(last);
    }
  }

  /** `.eq('in_stock', false).limit(5)`. */
  function OutOfStockFirst(products: seq<StockRow>): (r: seq<StockRow>)
    ensures |r| <= 5
    ensures forall p :: p in r ==> p in products && !p.inStock
    ensures var n := |Filter(products, (p: StockRow) => !p.inStock)|; |r| == if n < 5 then n else 5
    ensures r == Filter(products, (p: StockRow) => !p.inStock)[..|r|]
  {
    var outOfStock := Filter(products, (p: StockRow) => !p.inStock);
    var r := Take(outOfStock, 5);
    assert forall i :: 0 <= i < |r| ==> r[i] == outOfStock[i];
    r
  }

  /** The response, from the four queries' results in the order the handler runs them. */
  function Get(count: Query<nat>, orders: Query<seq<StatusRow>>,
               recent: Query<seq<RecentOrder>>, outOfStock: Query<seq<StockRow>>): (r: DashboardResponse)
    ensures count.QueryError? || orders.QueryError? || recent.QueryError? ==> r == Failure(500, FetchFailed)
    ensures r.Stats? <==> !count.QueryError? && !orders.QueryError? && !recent.QueryError?
    ensures r.Stats? ==>
      && r.stats.totalProducts == count.rows.GetOr(0)
      && |r.stats.recentOrders| <= 5
      && |r.stats.lowStockProducts| <= 5
      && (forall p :: p in r.stats.lowStockProducts ==> !p.inStock)
      && (outOfStock.QueryError? ==> r.stats.lowStockProducts == [])
    ensures r.Stats? ==>
      var rows := orders.rows.GetOr([]);
      var st := StatusesOfRows(rows);
      && r.stats.pendingOrders == CountIn(st, PendingBucket)
      && r.stats.acceptedOrders == CountIn(st, AcceptedBucket)
      && r.stats.fulfilledOrders == CountIn(st, FulfilledBucket)
      && r.stats.rejectedOrders == CountIn(st, RejectedBucket)
      && r.stats.totalRevenue == Revenue(rows)
      && r.stats.recentOrders == Take(recent.rows.GetOr([]), 5)
      && (!outOfStock.QueryError? ==> r.stats.lowStockProducts == OutOfStockFirst(outOfStock.rows.GetOr([])))
  {
    if count.QueryError? || orders.QueryError? || recent.QueryError? then Failure(500, FetchFailed)
    else
      var rows := orders.rows.GetOr([]);
      var st := StatusesOfRows(rows);
      var low := if outOfStock.QueryError? then [] else OutOfStockFirst(outOfStock.rows.GetOr([]));
      Stats(DashboardStats(
        count.rows.GetOr(0),
        CountIn(st, PendingBucket),
        CountIn(st, AcceptedBucket),
        CountIn(st, FulfilledBucket),
        CountIn(st, RejectedBucket),
        Revenue(rows),
        Take(recent.rows.GetOr([]), 5),
        low))
  }

  /** The four buckets are disjoint, so their counts add up to at most the number of orders. */
  lemma BucketsAtMostOrders(count: Query<nat>, rows: seq<StatusRow>, recent: Query<seq<RecentOrder>>, outOfStock: Query<seq<StockRow>>)
    requires !count.QueryError? && !recent.QueryError?
    ensures var s := Get(count, Data(Some(rows)), recent, outOfStock).stats;
      s.pendingOrders + s.acceptedOrders + s.fulfilledOrders + s.rejectedOrders <= |rows|
  {
    var st := StatusesOfRows(rows);
    CountDisjointUnion(st, PendingBucket, AcceptedBucket);
    CountDisjointUnion(st, PendingBucket + AcceptedBucket, FulfilledBucket);
    CountDisjointUnion(st, PendingBucket + AcceptedBucket + FulfilledBucket, RejectedBucket);
  }

  /** Orders that are confirmed, processing or shipped are counted in no bucket and earn no revenue. */
  lemma InFlightOrdersUncounted(count: Query<nat>, rows: seq<StatusRow>, recent: Query<seq<RecentOrder>>, outOfStock: Query<seq<StockRow>>)
    requires !count.QueryError? && !recent.QueryError?
    requires forall r :: r in rows ==> r.status in {Confirmed, Processing, Shipped}
    ensures var s := Get(count, Data(Some(rows)), recent, outOfStock).stats;
      s.pendingOrders == 0 && s.acceptedOrders == 0 && s.fulfilledOrders == 0 && s.rejectedOrders == 0
      && s.totalRevenue == 0.0
  {
    var st := StatusesOfRows(rows);
    assert forall i :: 0 <= i < |st| ==> st[i] == rows[i].status && rows[i] in rows;
    CountMissing(st, PendingBucket);
    CountMissing(st, AcceptedBucket);
    CountMissing(st, FulfilledBucket);
    CountMissing(st, RejectedBucket);
    FilterNone(rows, IsFulfilled);
  }

  /** A null orders result counts like an empty table. */
  lemma NullOrdersCountNothing(count: Query<nat>, recent: Query<seq<RecentOrder>>, outOfStock: Query<seq<StockRow>>)
    requires !count.QueryError? && !recent.QueryError?
    ensures Get(count, Data(None), recent, outOfStock) == Get(count, Data(Some([])), recent, outOfStock)
  {
  }

  /**
   * One more order row adds one to exactly the bucket of its status, and its total (null as 0)
   * to the revenue iff it is fulfilled or delivered; with the empty table counting nothing,
   * this determines every aggregate of the response.
   */
  lemma GetAddsRow(count: Query<nat>, rows: seq<StatusRow>, x: StatusRow,
                   recent: Query<seq<RecentOrder>>, outOfStock: Query<seq<StockRow>>)
    requires !count.QueryError? && !recent.QueryError?
    ensures var s0 := Get(count, Data(Some(rows)), recent, outOfStock).stats;
      var s1 := Get(count, Data(Some(rows + [x])), recent, outOfStock).stats;
      && s1.pendingOrders == s0.pendingOrders + (if x.status in {Pending, Reviewing} then 1 else 0)
      && s1.acceptedOrders == s0.acceptedOrders + (if x.status == Accepted then 1 else 0)
      && s1.fulfilledOrders == s0.fulfilledOrders + (if x.status in {Fulfilled, Delivered} then 1 else 0)
      && s1.rejectedOrders == s0.rejectedOrders + (if x.status in {Rejected, Cancelled} then 1 else 0)
      && s1.totalRevenue == s0.totalRevenue + (if x.status in {Fulfilled, Delivered} then NumberOr(x.total, 0.0) else 0.0)
  {
    var st := StatusesOfRows(rows);
    StatusesOfRowsSnoc(rows, x);
    CountInSnoc(st, x.status, PendingBucket);
    CountInSnoc(st, x.status, AcceptedBucket);
    CountInSnoc(st, x.status, FulfilledBucket);
    CountInSnoc(st, x.status, RejectedBucket);
    RevenueAppend(rows, [x]);
    RevenueOfOne(x);
  }

  /** A table of fulfilled and delivered orders only: all of them counted as fulfilled, nowhere else. */
  lemma AllFulfilledCounted(count: Query<nat>, rows: seq<StatusRow>, recent: Query<seq<RecentOrder>>, outOfStock: Query<seq<StockRow>>)
    requires !count.QueryError? && !recent.QueryError?
    requires forall r :: r in rows ==> r.status in {Fulfilled, Delivered}
    ensures var s := Get(count, Data(Some(rows)), recent, outOfStock).stats;
      s.fulfilledOrders == |rows| && s.pendingOrders == 0 && s.acceptedOrders == 0 && s.rejectedOrders == 0
  {
    var st := StatusesOfRows(rows);
    assert forall i :: 0 <= i < |st| ==> st[i] == rows[i].status && rows[i] in rows;
    CountAll(st, FulfilledBucket);
    CountMissing(st, PendingBucket);
    CountMissing(st, AcceptedBucket);
    CountMissing(st, RejectedBucket);
  }
}
