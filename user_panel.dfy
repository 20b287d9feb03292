/**
 * The buyer's account page (UserPanel.tsx): the order history, each order
 * with a status badge and the amount of each of its lines.
 */
module UserPanel {
  import opened Types

  const DeliveredClass := "bg-green-100 text-green-800"
  const InTransitClass := "bg-blue-100 text-blue-800"
  const ProcessingClass := "bg-yellow-100 text-yellow-800"
  const OtherClass := "bg-gray-100 text-gray-800"

  /** `getStatusBadgeClass`: green, blue and yellow for the three known statuses, gray for anything else. */
  function StatusBadgeClass(status: string): (c: string)
    ensures c == DeliveredClass <==> status == "Entregado"
    ensures c == InTransitClass <==> status == "En Camino"
    ensures c == ProcessingClass <==> status == "Procesando"
    ensures c == OtherClass <==> status !in {"Entregado", "En Camino", "Procesando"}
  {
    match status
    case "Entregado" => DeliveredClass
    case "En Camino" => InTransitClass
    case "Procesando" => ProcessingClass
    case _ => OtherClass
  }

  /** One order of the history as shown: its badge, its stored total and one amount per line. */
  datatype OrderRow = OrderRow(id: string, date: int, status: string, badgeClass: string, total: int, lineAmounts: seq<int>)

  function Row(o: Order): (r: OrderRow)
    ensures r.id == o.id && r.status == o.status && r.total == o.total
    ensures r.badgeClass == StatusBadgeClass(o.status)
    ensures |r.lineAmounts| == |o.items|
    ensures forall i :: 0 <= i < |o.items| ==> r.lineAmounts[i] == o.items[i].price * o.items[i].quantity
  {
    OrderRow(o.id, o.date, o.status, StatusBadgeClass(o.status), o.total,
             seq(|o.items|, i requires 0 <= i < |o.items| => LineTotal(o.items[i])))
  }

  datatype History = NoOrdersYet | OrderList(rows: seq<OrderRow>)

  /** The history: a message when there are no orders, otherwise one row per order, in the given order. */
  function HistoryView(orders: seq<Order>): (h: History)
    ensures h.NoOrdersYet? <==> |orders| == 0
    ensures h.OrderList? ==> |h.rows| == |orders| && forall i :: 0 <= i < |orders| ==> h.rows[i] == Row(orders[i])
  {
    if |orders| == 0 then NoOrdersYet else OrderList(seq(|orders|, i requires 0 <= i < |orders| => Row(orders[i])))
  }

  /** The four badge classes differ, so each status group is told apart. */
  lemma BadgeClassesDistinct(s1: string, s2: string)
    requires s1 in {"Entregado", "En Camino", "Procesando"} && s1 != s2
    ensures StatusBadgeClass(s1) != StatusBadgeClass(s2)
  {
  }
}
