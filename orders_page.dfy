/** The customer's order history: newest first, with the cancel control for finished orders. */
module OrdersPage {
  import opened Domain
  import Sorting

  predicate CreatedNoEarlier(a: Order, b: Order) {
    a.createdAt >= b.createdAt
  }

  /** `sortedOrders`: a rearrangement of the orders, newest first. */
  function SortedOrders(orders: seq<Order>): (r: seq<Order>)
    ensures multiset(r) == multiset(orders)
    ensures forall i, j :: 0 <= i < j < |r| ==> r[i].createdAt >= r[j].createdAt
  {
    var le := (a: Order, b: Order) => CreatedNoEarlier(a, b);
    Sorting.SortSorted(orders, le);
    Sorting.Sort(orders, le)
  }

  /** `canCancelOrder`: only a completed or delivered order offers the cancel control. */
  predicate CanCancelOrder(status: OrderStatus) {
    status == Completed || status == Delivered
  }

  lemma CancelEligibility()
    ensures CanCancelOrder(Completed) && CanCancelOrder(Delivered)
    ensures !CanCancelOrder(Pending) && !CanCancelOrder(Shipped) && !CanCancelOrder(Cancelled)
    ensures forall raw :: !CanCancelOrder(Other(raw))
  {
  }

  /** One order card: its badge caption and whether the cancel control is rendered. */
  datatype OrderCard = OrderCard(order: Order, caption: string, showCancel: bool)

  function Card(o: Order): (c: OrderCard)
    ensures c.order == o
    ensures c.showCancel <==> CanCancelOrder(o.status)
    ensures c.caption == StatusLabel(o.status)
  {
    OrderCard(o, StatusLabel(o.status), CanCancelOrder(o.status))
  }

  datatype OrdersView = Loading | NoOrders | Cards(cards: seq<OrderCard>)

  /** The page: a placeholder while loading, the empty state for no orders, else one card per order, newest first. */
  function View(loading: bool, orders: seq<Order>): (v: OrdersView)
    ensures loading <==> v == Loading
    ensures v == NoOrders <==> !loading && orders == []
    ensures v.Cards? ==> |v.cards| == |orders|
    ensures v.Cards? ==> forall i :: 0 <= i < |v.cards| ==> v.cards[i] == Card(SortedOrders(orders)[i])
  {
    if loading then Loading
    else if orders == [] then NoOrders
    else
      var sorted := SortedOrders(orders);
      Cards(seq(|sorted|, i requires 0 <= i < |sorted| => Card(sorted[i])))
  }

  /** Every order appears on exactly one card. */
  lemma EveryOrderShown(orders: seq<Order>, o: Order)
    ensures o in orders <==> o in SortedOrders(orders)
  {
    assert o in orders <==> o in multiset(orders);
    assert o in SortedOrders(orders) <==> o in multiset(SortedOrders(orders));
  }
}
