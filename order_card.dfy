/** The card of one order in the list: its status badge, the first three
    active lines, the "+N" overflow button, the subtotal and the pay button. */
module OrderCard {

  import opened Types

  datatype Badge = PaidBadge | ReadyBadge | CookingBadge
  {
    function Text(): string
    {
      match this
      case PaidBadge => "TO'LANGAN"
      case ReadyBadge => "TAYYOR"
      case CookingBadge => "TAYYORLANMOQDA"
    }
  }

  predicate IsDone(item: OrderItem) { item.status == Ready || item.status == Served }

  /** `items.every(item => item.status === 'ready' || item.status === 'served')`,
      cancelled lines included. */
  function AllReady(items: seq<OrderItem>): (r: bool)
    ensures r <==> forall i :: 0 <= i < |items| ==> IsDone(items[i])
  {
    if items == [] then true else IsDone(items[0]) && AllReady(items[1..])
  }

  /** `getStatusBadge`: paid wins over everything; an unpaid order is ready
      iff every line (even a cancelled one) is ready or served, so an order
      without lines is ready; otherwise it is being prepared. */
  function StatusBadge(order: Order): (b: Badge)
    ensures order.paymentStatus == Paid ==> b == PaidBadge
    ensures order.paymentStatus != Paid ==>
      (b == ReadyBadge <==> forall i :: 0 <= i < |order.items| ==> IsDone(order.items[i]))
    ensures order.paymentStatus != Paid ==> b != PaidBadge
    ensures order.paymentStatus != Paid && order.items == [] ==> b == ReadyBadge
  {
    if order.paymentStatus == Paid then PaidBadge
    else if AllReady(order.items) then ReadyBadge
    else CookingBadge
  }

  function Min(a: int, b: int): int { if a < b then a else b }

  /** `activeItems.slice(0, 3)`: the first three active lines, or all of them
      when there are fewer. */
  function DisplayItems(order: Order): (r: seq<OrderItem>)
    ensures |r| == Min(3, |ActiveItems(order.items)|)
    ensures r == ActiveItems(order.items)[..|r|]
  {
    var active := ActiveItems(order.items);
    if |active| <= 3 then active else active[..3]
  }

  /** `remainingCount`: may be zero or negative when nothing is hidden. */
  function RemainingCount(order: Order): int
  {
    |ActiveItems(order.items)| - 3
  }

  /** The "+N" button appears iff some active line is hidden, and N is the
      number of hidden lines. */
  lemma OverflowButton(order: Order)
    ensures RemainingCount(order) > 0 <==> |DisplayItems(order)| < |ActiveItems(order.items)|
    ensures RemainingCount(order) > 0 ==>
      RemainingCount(order) == |ActiveItems(order.items)| - |DisplayItems(order)|
  {
  }

  /** What the card shows. */
  datatype CardView = CardView(
    badge: Badge,
    lines: seq<OrderItem>,
    more: Option<int>,
    subtotal: int,
    serviceFee: int,
    grandTotal: int,
    showPay: bool)

  function View(order: Order): (v: CardView)
    ensures v.badge == StatusBadge(order) && v.lines == DisplayItems(order)
    ensures v.more.Some? <==> |ActiveItems(order.items)| > 3
    ensures v.more.Some? ==> v.more.value == |ActiveItems(order.items)| - |v.lines|
    ensures v.subtotal == Subtotal(order.items)
    ensures v.serviceFee == order.serviceFee && v.grandTotal == order.grandTotal
    ensures v.showPay <==> order.paymentStatus != Paid
  {
    var remaining := RemainingCount(order);
    CardView(
      StatusBadge(order),
      DisplayItems(order),
      if remaining > 0 then Some(remaining) else None,
      Subtotal(order.items),
      order.serviceFee,
      order.grandTotal,
      order.paymentStatus != Paid)
  }
}
