/** The order details dialog: active and cancelled lines shown apart, the
    title, the total and whether payment is offered. */
module OrderDetailsModal {

  import opened Types
  import opened Seqs

  /** The active and cancelled lists partition an order's lines: no line is in
      both, every line is in one of them as often as in the order, their
      lengths add up, and each keeps the order's sequence. */
  lemma ItemPartition(items: seq<OrderItem>, more: seq<OrderItem>)
    ensures forall x :: !(x in ActiveItems(items) && x in CancelledItems(items))
    ensures forall x :: x in items ==> x in ActiveItems(items) || x in CancelledItems(items)
    ensures multiset(ActiveItems(items)) + multiset(CancelledItems(items)) == multiset(items)
    ensures |ActiveItems(items)| + |CancelledItems(items)| == |items|
    ensures ActiveItems(items + more) == ActiveItems(items) + ActiveItems(more)
    ensures CancelledItems(items + more) == CancelledItems(items) + CancelledItems(more)
  {
    FilterPartition(items, IsActive, IsCancelled);
    FilterAppend(items, more, IsActive);
    FilterAppend(items, more, IsCancelled);
  }

  /** What the dialog shows for an order. */
  datatype DetailsView = DetailsView(
    title: string,
    active: seq<OrderItem>,
    cancelled: seq<OrderItem>,
    total: int,
    showPay: bool)

  function View(order: Order): (v: DetailsView)
    ensures v.title == "Soboy" <==> order.orderType == Some(Saboy) || order.tableName == "Soboy"
    ensures order.orderType != Some(Saboy) ==> v.title == order.tableName
    ensures v.showPay <==> order.paymentStatus != Paid
    ensures v.total == order.grandTotal
    ensures v.active == ActiveItems(order.items) && v.cancelled == CancelledItems(order.items)
    ensures |v.active| + |v.cancelled| == |order.items|
  {
    FilterPartition(order.items, IsActive, IsCancelled);
    DetailsView(
      if order.orderType == Some(Saboy) then "Soboy" else order.tableName,
      ActiveItems(order.items),
      CancelledItems(order.items),
      order.grandTotal,
      order.paymentStatus != Paid)
  }
}
