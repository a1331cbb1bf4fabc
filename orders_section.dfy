/** The order list with its three tabs: unpaid ("active"), paid and all. */
module OrdersSection {

  import opened Types
  import opened Seqs

  datatype FilterType = ActiveTab | PaidTab | AllTab

  /** The tab selected when the list is first shown. */
  const InitialFilter: FilterType := ActiveTab

  predicate IsUnpaid(o: Order) { o.paymentStatus != Paid }
  predicate IsPaid(o: Order) { o.paymentStatus == Paid }

  function ActiveOrders(orders: seq<Order>): seq<Order> { Filter(orders, IsUnpaid) }
  function PaidOrders(orders: seq<Order>): seq<Order> { Filter(orders, IsPaid) }

  /** The two tabs partition the orders by payment status, each in the input
      order, and their counts add up to the count of the 'all' tab. */
  lemma OrderPartition(orders: seq<Order>, more: seq<Order>)
    ensures forall o :: o in ActiveOrders(orders) <==> o in orders && o.paymentStatus != Paid
    ensures forall o :: o in PaidOrders(orders) <==> o in orders && o.paymentStatus == Paid
    ensures multiset(ActiveOrders(orders)) + multiset(PaidOrders(orders)) == multiset(orders)
    ensures |ActiveOrders(orders)| + |PaidOrders(orders)| == |orders|
    ensures ActiveOrders(orders + more) == ActiveOrders(orders) + ActiveOrders(more)
    ensures PaidOrders(orders + more) == PaidOrders(orders) + PaidOrders(more)
  {
    FilterPartition(orders, IsUnpaid, IsPaid);
    FilterAppend(orders, more, IsUnpaid);
    FilterAppend(orders, more, IsPaid);
  }

  /** `filteredOrders`. */
  function Selected(orders: seq<Order>, filter: FilterType): (r: seq<Order>)
    ensures filter == ActiveTab ==> r == ActiveOrders(orders)
    ensures filter == PaidTab ==> r == PaidOrders(orders)
    ensures filter == ActiveTab ==> forall o :: o in r <==> o in orders && o.paymentStatus != Paid
    ensures filter == PaidTab ==> forall o :: o in r <==> o in orders && o.paymentStatus == Paid
    ensures filter == AllTab ==> r == orders
  {
    match filter
    case ActiveTab => ActiveOrders(orders)
    case PaidTab => PaidOrders(orders)
    case AllTab => orders
  }

  /** The counters on the three tabs. */
  datatype TabCounts = TabCounts(active: nat, paid: nat, all: nat)

  function Counts(orders: seq<Order>): (c: TabCounts)
    ensures c.active + c.paid == c.all == |orders|
    ensures c.active == |Selected(orders, ActiveTab)| && c.paid == |Selected(orders, PaidTab)|
  {
    FilterPartition(orders, IsUnpaid, IsPaid);
    TabCounts(|ActiveOrders(orders)|, |PaidOrders(orders)|, |orders|)
  }

  /** The empty-state message, chosen by the tab, shown iff the tab is empty. */
  function EmptyMessage(orders: seq<Order>, filter: FilterType): (m: Option<string>)
    ensures m.Some? <==> Selected(orders, filter) == []
    ensures m.Some? && filter == ActiveTab ==> m.value == "Hozirda faol buyurtmalar mavjud emas"
    ensures m.Some? && filter == PaidTab ==> m.value == "Bugun to'langan buyurtmalar yo'q"
    ensures m.Some? && filter == AllTab ==> m.value == "Buyurtmalar kelganda bu yerda ko'rinadi"
  {
    if |Selected(orders, filter)| != 0 then None
    else match filter
      case ActiveTab => Some("Hozirda faol buyurtmalar mavjud emas")
      case PaidTab => Some("Bugun to'langan buyurtmalar yo'q")
      case AllTab => Some("Buyurtmalar kelganda bu yerda ko'rinadi")
  }
}
