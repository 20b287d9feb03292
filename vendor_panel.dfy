/**
 * The vendor's dashboard (VendorPanel.tsx): the global order list projected
 * onto the shop's products, newest first; the three statistics folded from it;
 * the five most recent shop orders; and the confirmation gate in front of a
 * product deletion.
 */
module VendorPanel {
  import opened Types
  import opened Sequences

  /** An order restricted to the shop's lines, with the amount those lines add up to. */
  datatype ShopOrder = ShopOrder(order: Order, shopTotal: int)

  datatype Stats = Stats(revenue: int, productsSold: int, orderCount: int)

  /** The ids of the shop's products. */
  function ProductIds(products: seq<Product>): (ids: set<Option<string>>)
    ensures forall i :: 0 <= i < |products| ==> products[i].id in ids
  {
    if products == [] then {} else ProductIds(products[..|products| - 1]) + {products[|products| - 1].id}
  }

  /** The set holds nothing but the products' ids. */
  lemma {:induction false} ProductIdsOnly(products: seq<Product>, id: Option<string>)
    requires id in ProductIds(products)
    ensures exists i :: 0 <= i < |products| && products[i].id == id
  {
    var init := products[..|products| - 1];
    if id in ProductIds(init) {
      ProductIdsOnly(init, id);
      var i :| 0 <= i < |init| && init[i].id == id;
      assert products[i] == init[i];
    } else {
      assert products[|products| - 1].id == id;
    }
  }

  function FromShop(ids: set<Option<string>>): OrderItem -> bool
  {
    (item: OrderItem) => Some(item.id) in ids
  }

  /** The lines of an order that sell one of the shop's products, in order. */
  function ItemsFromShop(items: seq<OrderItem>, ids: set<Option<string>>): seq<OrderItem>
  {
    Keep(items, FromShop(ids))
  }

  /** The shop's share of an order: `price * quantity` over its lines only. */
  function ShopSales(ids: set<Option<string>>): Order -> int
  {
    (o: Order) => SumOf(ItemsFromShop(o.items, ids), LineTotal)
  }

  /** The units of the shop's products an order sells. */
  function ShopUnits(ids: set<Option<string>>): Order -> int
  {
    (o: Order) => SumOf(ItemsFromShop(o.items, ids), Quantity)
  }

  /**
   * One step of the `map`: an order with no line from the shop projects to
   * nothing; otherwise to the order with only the shop's lines and their total.
   */
  function Project(o: Order, ids: set<Option<string>>): (r: Option<ShopOrder>)
    ensures r.None? <==> forall i :: 0 <= i < |o.items| ==> Some(o.items[i].id) !in ids
    ensures r.Some? ==> r.value.order == o.(items := ItemsFromShop(o.items, ids))
    ensures r.Some? ==> |r.value.order.items| > 0 && r.value.shopTotal == ShopSales(ids)(o)
  {
    var kept := ItemsFromShop(o.items, ids);
    if |kept| == 0 then
      assert forall i :: 0 <= i < |o.items| ==> Some(o.items[i].id) !in ids by {
        forall i | 0 <= i < |o.items|
          ensures Some(o.items[i].id) !in ids
        {
          KeepMembers(o.items, FromShop(ids), o.items[i]);
        }
      }
      None
    else
      Some(ShopOrder(o.(items := kept), SumOf(kept, LineTotal)))
  }

  /** `map` with `Project` followed by the `filter` that drops the empty projections. */
  function Projections(orders: seq<Order>, ids: set<Option<string>>): seq<ShopOrder>
  {
    if orders == [] then [] else Projections(orders[..|orders| - 1], ids) + Emitted(orders[|orders| - 1], ids)
  }

  /** What one order contributes after the `filter`: its projection, if any. */
  function Emitted(o: Order, ids: set<Option<string>>): (r: seq<ShopOrder>)
    ensures forall so :: so in r <==> Project(o, ids) == Some(so)
  {
    match Project(o, ids)
    case None => []
    case Some(so) => [so]
  }

  /** Sort rank for "newest first": the comparator `date(b) - date(a)`. */
  function Recency(so: ShopOrder): int
  {
    -so.order.date
  }

  /** `shopOrders`: the shop's orders, newest first. */
  function ShopOrders(products: seq<Product>, orders: seq<Order>): seq<ShopOrder>
  {
    SortByRank(Projections(orders, ProductIds(products)), Recency)
  }

  function ShopTotalOf(so: ShopOrder): int
  {
    so.shopTotal
  }

  function UnitsOf(so: ShopOrder): int
  {
    SumOf(so.order.items, Quantity)
  }

  /** `stats`: revenue, units sold and the number of shop orders. */
  function ComputeStats(shopOrders: seq<ShopOrder>): (s: Stats)
    ensures s.orderCount == |shopOrders|
  {
    Stats(SumOf(shopOrders, ShopTotalOf), SumOf(shopOrders, UnitsOf), |shopOrders|)
  }

  /** The "recent orders" column: `slice(0, 5)`. */
  function RecentOrders(shopOrders: seq<ShopOrder>): (r: seq<ShopOrder>)
    ensures |r| <= 5 && r <= shopOrders
    ensures |r| == if |shopOrders| < 5 then |shopOrders| else 5
    ensures |shopOrders| <= 5 ==> r == shopOrders
  {
    if |shopOrders| <= 5 then shopOrders else shopOrders[..5]
  }

  /** `handleDelete`: the deletion of `productId` is requested only when the user confirms. */
  function DeleteRequest(confirmed: bool, productId: string): (r: Option<string>)
    ensures r.Some? <==> confirmed
    ensures r.Some? ==> r.value == productId
  {
    if confirmed then Some(productId) else None
  }

  /** Every order with at least one of the shop's lines yields a shop order. */
  lemma {:induction false} ProjectionListed(orders: seq<Order>, ids: set<Option<string>>, i: int)
    requires 0 <= i < |orders| && Project(orders[i], ids).Some?
    ensures Project(orders[i], ids).value in Projections(orders, ids)
  {
    var init, last := orders[..|orders| - 1], orders[|orders| - 1];
    var so := Project(orders[i], ids).value;
    assert Projections(orders, ids) == Projections(init, ids) + Emitted(last, ids);
    if i < |init| {
      assert init[i] == orders[i];
      ProjectionListed(init, ids, i);
      assert so in Projections(init, ids);
    } else {
      assert i == |orders| - 1;
      assert so in Emitted(last, ids);
    }
  }

  /** Every shop order is the projection of some order of the list. */
  lemma {:induction false} ListedIsProjection(orders: seq<Order>, ids: set<Option<string>>, so: ShopOrder)
    requires so in Projections(orders, ids)
    ensures exists i :: 0 <= i < |orders| && Project(orders[i], ids) == Some(so)
  {
    var init, last := orders[..|orders| - 1], orders[|orders| - 1];
    if so in Projections(init, ids) {
      ListedIsProjection(init, ids, so);
      var i :| 0 <= i < |init| && Project(init[i], ids) == Some(so);
      assert orders[i] == init[i];
    } else {
      assert so in Emitted(last, ids);
      assert Project(orders[|orders| - 1], ids) == Some(so);
    }
  }

  /** Membership in `shopOrders`: exactly the non-empty projections of the orders. */
  lemma ShopOrdersMembers(products: seq<Product>, orders: seq<Order>, so: ShopOrder)
    ensures so in ShopOrders(products, orders)
        <==> exists i :: 0 <= i < |orders| && Project(orders[i], ProductIds(products)) == Some(so)
  {
    var ids := ProductIds(products);
    assert multiset(ShopOrders(products, orders)) == multiset(Projections(orders, ids));
    var r, p := ShopOrders(products, orders), Projections(orders, ids);
    assert so in r <==> so in multiset(r);
    assert so in p <==> so in multiset(p);
    if so in Projections(orders, ids) {
      ListedIsProjection(orders, ids, so);
    }
    if exists i :: 0 <= i < |orders| && Project(orders[i], ids) == Some(so) {
      var i :| 0 <= i < |orders| && Project(orders[i], ids) == Some(so);
      ProjectionListed(orders, ids, i);
    }
  }

  /** `shopOrders` is sorted with the most recent order first. */
  lemma ShopOrdersNewestFirst(products: seq<Product>, orders: seq<Order>)
    ensures forall i, j :: 0 <= i < j < |ShopOrders(products, orders)| ==>
              ShopOrders(products, orders)[i].order.date >= ShopOrders(products, orders)[j].order.date
  {
    var r := ShopOrders(products, orders);
    SortByRankSorted(Projections(orders, ProductIds(products)), Recency);
    assert SortedBy(r, Recency);
    forall i, j | 0 <= i < j < |r|
      ensures r[i].order.date >= r[j].order.date
    {
      assert Recency(r[i]) <= Recency(r[j]);
    }
  }

  /** Shop orders of the same date keep their order in the list. */
  lemma ShopOrdersSameDateStable(products: seq<Product>, orders: seq<Order>, date: int)
    ensures WithRank(ShopOrders(products, orders), Recency, -date)
         == WithRank(Projections(orders, ProductIds(products)), Recency, -date)
  {
    SortByRankStable(Projections(orders, ProductIds(products)), Recency, -date);
  }

  /** Revenue is the shop's share of every order of the list; orders without the shop's lines add nothing. */
  lemma {:induction false} ProjectionsRevenue(orders: seq<Order>, ids: set<Option<string>>)
    ensures SumOf(Projections(orders, ids), ShopTotalOf) == SumOf(orders, ShopSales(ids))
  {
    if orders != [] {
      var init, last := orders[..|orders| - 1], orders[|orders| - 1];
      ProjectionsRevenue(init, ids);
      var tail := Emitted(last, ids);
      SumOfConcat(Projections(init, ids), tail, ShopTotalOf);
      if Project(last, ids).None? {
        assert ItemsFromShop(last.items, ids) == [];
      } else {
        assert tail[..0] == [];
      }
    }
  }

  /** Units sold are the units of the shop's lines over every order of the list. */
  lemma {:induction false} ProjectionsUnits(orders: seq<Order>, ids: set<Option<string>>)
    ensures SumOf(Projections(orders, ids), UnitsOf) == SumOf(orders, ShopUnits(ids))
  {
    if orders != [] {
      var init, last := orders[..|orders| - 1], orders[|orders| - 1];
      ProjectionsUnits(init, ids);
      var tail := Emitted(last, ids);
      SumOfConcat(Projections(init, ids), tail, UnitsOf);
      if Project(last, ids).None? {
        assert ItemsFromShop(last.items, ids) == [];
      } else {
        assert tail[..0] == [];
      }
    }
  }

  /** One for an order that has a line from the shop, zero otherwise. */
  function HasShopLine(ids: set<Option<string>>): Order -> int
  {
    (o: Order) => if Project(o, ids).Some? then 1 else 0
  }

  /** The null filter keeps one entry per order that has a line from the shop. */
  lemma {:induction false} ProjectionsCount(orders: seq<Order>, ids: set<Option<string>>)
    ensures |Projections(orders, ids)| == SumOf(orders, HasShopLine(ids))
  {
    if orders != [] {
      ProjectionsCount(orders[..|orders| - 1], ids);
    }
  }

  /** The statistics, stated against the order list itself: they do not depend on the projection or the sort. */
  lemma StatsFromOrders(products: seq<Product>, orders: seq<Order>)
    ensures ComputeStats(ShopOrders(products, orders)).revenue == SumOf(orders, ShopSales(ProductIds(products)))
    ensures ComputeStats(ShopOrders(products, orders)).productsSold == SumOf(orders, ShopUnits(ProductIds(products)))
    ensures ComputeStats(ShopOrders(products, orders)).orderCount == SumOf(orders, HasShopLine(ProductIds(products)))
  {
    var ids := ProductIds(products);
    var s := Projections(orders, ids);
    SumOfSortByRank(s, Recency, ShopTotalOf);
    SumOfSortByRank(s, Recency, UnitsOf);
    ProjectionsRevenue(orders, ids);
    ProjectionsUnits(orders, ids);
    ProjectionsCount(orders, ids);
  }

  /** The recent-orders column shows the newest orders: none shown is older than one left out. */
  lemma RecentAreNewest(products: seq<Product>, orders: seq<Order>)
    ensures forall i, j :: 0 <= i < |RecentOrders(ShopOrders(products, orders))| <= j < |ShopOrders(products, orders)| ==>
              RecentOrders(ShopOrders(products, orders))[i].order.date >= ShopOrders(products, orders)[j].order.date
  {
    ShopOrdersNewestFirst(products, orders);
  }

  /** The example's catalog: one shop owning "p1" and "p2". */
  function ExampleProducts(shop: Shop): seq<Product>
  {
    [Product(Some("p1"), "", 0, NoPrice, 0, 0, "", "", shop, [], "", 0),
     Product(Some("p2"), "", 0, NoPrice, 0, 0, "", "", shop, [], "", 0)]
  }

  /** The example's orders: the first holds a "p1" line and a foreign "p9" line, the second only a foreign line. */
  function ExampleFirst(d1: int): Order
  {
    Order("o1", d1, "", 0, [OrderItem("p1", "", "", 1000, 2), OrderItem("p9", "", "", 100, 1)], None)
  }

  function ExampleSecond(d2: int): Order
  {
    Order("o2", d2, "", 0, [OrderItem("p3", "", "", 100, 1)], None)
  }

  /** The first order as the shop sees it: its "p1" line alone, 20.00 in sales. */
  function ExampleShopOrder(d1: int): ShopOrder
  {
    ShopOrder(ExampleFirst(d1).(items := [OrderItem("p1", "", "", 1000, 2)]), 2000)
  }

  lemma ExampleIds(shop: Shop)
    ensures ProductIds(ExampleProducts(shop)) == {Some("p1"), Some("p2")}
  {
    var products := ExampleProducts(shop);
    var one := products[..1];
    assert one[..0] == [];
    assert ProductIds(one) == {Some("p1")};
    assert ProductIds(products) == ProductIds(one) + {Some("p2")};
  }

  lemma ExampleFirstProjected(d1: int, ids: set<Option<string>>)
    requires ids == {Some("p1"), Some("p2")}
    ensures Emitted(ExampleFirst(d1), ids) == [ExampleShopOrder(d1)]
  {
    var first := ExampleFirst(d1);
    var p1 := OrderItem("p1", "", "", 1000, 2);
    var p9 := OrderItem("p9", "", "", 100, 1);
    assert ItemsFromShop([p9], ids) == [];
    assert ItemsFromShop(first.items, ids) == [p1];
    assert SumOf([p1], LineTotal) == 2000 by {
      assert [p1][..0] == [];
    }
    assert Project(first, ids) == Some(ExampleShopOrder(d1));
  }

  lemma ExampleProjections(d1: int, d2: int, ids: set<Option<string>>)
    requires ids == {Some("p1"), Some("p2")}
    ensures Projections([ExampleFirst(d1), ExampleSecond(d2)], ids) == [ExampleShopOrder(d1)]
  {
    var first, second := ExampleFirst(d1), ExampleSecond(d2);
    ExampleFirstProjected(d1, ids);
    assert ItemsFromShop(second.items, ids) == [];
    assert [first, second][..1] == [first];
    assert [first][..0] == [];
    assert Projections([first], ids) == [ExampleShopOrder(d1)];
  }

  lemma ExampleStats(o: Order)
    requires o.items == [OrderItem("p1", "", "", 1000, 2)]
    ensures ComputeStats([ShopOrder(o, 2000)]) == Stats(2000, 2, 1)
  {
    var so := ShopOrder(o, 2000);
    assert [so][..0] == [];
    assert o.items[..0] == [];
    assert SumOf(o.items, Quantity) == 2;
    assert SumOf([so], ShopTotalOf) == 2000;
    assert SumOf([so], UnitsOf) == 2;
  }

  /** Two orders, one shop owning "p1" and "p2": only the first order is the shop's, with 20.00 in sales and 2 units. */
  lemma AggregationExample(shop: Shop, d1: int, d2: int)
    ensures ShopOrders(ExampleProducts(shop), [ExampleFirst(d1), ExampleSecond(d2)]) == [ExampleShopOrder(d1)]
    ensures ComputeStats(ShopOrders(ExampleProducts(shop), [ExampleFirst(d1), ExampleSecond(d2)])) == Stats(2000, 2, 1)
  {
    ExampleIds(shop);
    ExampleProjections(d1, d2, ProductIds(ExampleProducts(shop)));
    var expected := ExampleShopOrder(d1);
    assert [expected][..0] == [];
    assert SortByRank([expected], Recency) == [expected];
    ExampleStats(expected.order);
  }
}
