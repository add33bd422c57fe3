/**
 * The sample data of lib/mock-data.ts: six products, three orders, and the dashboard figures
 * computed from them. Descriptions, image URLs and customer addresses are not part of this
 * model; timestamps are the milliseconds their ISO strings denote.
 */
module MockData {
  import opened Seqs
  import opened Domain

  function MockProduct(id: string, title: string, slug: string, price: real, productType: string, stock: int, createdAt: string): AdminProduct {
    AdminProduct(id, title, slug, "", price, [], productType, stock, createdAt)
  }

  const MockProducts: seq<AdminProduct> := [
    MockProduct("1", "Ethereal Landscape", "ethereal-landscape", 299.0, "Painting", 5, "2024-01-15T10:00:00Z"),
    MockProduct("2", "Urban Dreams", "urban-dreams", 189.0, "Illustration", 8, "2024-01-16T14:30:00Z"),
    MockProduct("3", "Abstract Emotions", "abstract-emotions", 450.0, "Painting", 3, "2024-01-17T09:15:00Z"),
    MockProduct("4", "Minimalist Geometry", "minimalist-geometry", 225.0, "Print", 12, "2024-01-18T16:45:00Z"),
    MockProduct("5", "Nature's Symphony", "natures-symphony", 175.0, "Photography", 7, "2024-01-19T11:20:00Z"),
    MockProduct("6", "Digital Horizons", "digital-horizons", 320.0, "Digital Art", 6, "2024-01-20T13:10:00Z")
  ]

  const MockOrders: seq<Order> := [
    Order("ORD-2024-001", "Sarah Johnson", "sarah.johnson@email.com", Reviewing, 299.0, 299.0, 1705829400000,
      [OrderLine("1", 1, 299.0)]),
    Order("ORD-2024-002", "Michael Chen", "michael.chen@email.com", Accepted, 603.0, 603.0, 1705760100000,
      [OrderLine("2", 2, 189.0), OrderLine("4", 1, 225.0)]),
    Order("ORD-2024-003", "Emma Rodriguez", "emma.rodriguez@email.com", Fulfilled, 450.0, 450.0, 1705681200000,
      [OrderLine("3", 1, 450.0)])
  ]

  /** Σ price × quantity over an order's lines. */
  function LinesTotal(lines: seq<OrderLine>): real {
    if lines == [] then 0.0
    else LinesTotal(lines[..|lines| - 1]) + lines[|lines| - 1].price * (lines[|lines| - 1].quantity as real)
  }

  /** The sum of the orders' totals (`reduce((t, o) => t + o.total, 0)`). */
  function SumOfTotals(orders: seq<Order>): real {
    if orders == [] then 0.0
    else SumOfTotals(orders[..|orders| - 1]) + orders[|orders| - 1].total
  }

  /** The dashboard figures of `mockDashboardStats`. */
  datatype MockStats = MockStats(totalProducts: nat, pendingOrders: nat, fulfilledOrders: nat, totalRevenue: real)

  /** `mockDashboardStats`: only 'reviewing' counts as pending, only 'fulfilled' as fulfilled. */
  function StatsOf(products: seq<AdminProduct>, orders: seq<Order>): MockStats {
    var fulfilled := Filter(orders, (o: Order) => o.status == Fulfilled);
    MockStats(|products|, |Filter(orders, (o: Order) => o.status == Reviewing)|, |fulfilled|, SumOfTotals(fulfilled))
  }

  /** For this data: six products, one pending (reviewing) order, one fulfilled order, revenue 450. */
  lemma MockStatsValues()
    ensures StatsOf(MockProducts, MockOrders) == MockStats(6, 1, 1, 450.0)
  {
    var reviewing := Filter(MockOrders, (o: Order) => o.status == Reviewing);
    var fulfilled := Filter(MockOrders, (o: Order) => o.status == Fulfilled);
    assert MockOrders[1..][1..][1..] == [];
    assert reviewing == [MockOrders[0]];
    assert fulfilled == [MockOrders[2]];
    assert [MockOrders[2]][..0] == [];
  }

  /** A pending order, were there one, would not be counted as pending by these figures. */
  lemma PendingNotCounted(o: Order)
    requires o.status == Pending
    ensures StatsOf([], [o]).pendingOrders == 0
  {
    assert [o][1..] == [];
  }

  /** Every mock order's subtotal is Σ price × quantity of its lines, and its total equals its subtotal. */
  lemma MockOrdersConsistent()
    ensures forall o :: o in MockOrders ==> o.subtotal == LinesTotal(o.items) && o.total == o.subtotal
  {
    var l0 := MockOrders[0].items;
    var l1 := MockOrders[1].items;
    var l2 := MockOrders[2].items;
    assert l0[..0] == [] && l2[..0] == [] && l1[..1][..0] == [];
    assert l1[..1] == [OrderLine("2", 2, 189.0)];
    assert LinesTotal(l0) == 299.0;
    assert LinesTotal(l1[..1]) == 378.0;
    assert LinesTotal(l1) == 603.0;
    assert LinesTotal(l2) == 450.0;
  }

  /** The mock order ids are pairwise distinct. */
  lemma MockOrderIdsDistinct()
    ensures forall i, j :: 0 <= i < j < |MockOrders| ==> MockOrders[i].id != MockOrders[j].id
  {
    assert MockOrders[0].id[11] == '1' && MockOrders[1].id[11] == '2' && MockOrders[2].id[11] == '3';
  }

  /** Every ordered line is priced at the catalogue price of the product it names. */
  lemma MockLinesAtCataloguePrice()
    ensures forall o, l :: o in MockOrders && l in o.items ==>
      exists p :: p in MockProducts && p.id == l.productId && p.price == l.price
  {
    assert MockProducts[0].id == "1" && MockProducts[1].id == "2";
    assert MockProducts[2].id == "3" && MockProducts[3].id == "4";
  }
}
