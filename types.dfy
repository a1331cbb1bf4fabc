/** The cashier's data model: orders, their items, takeaway ("saboy") cart
    entries, menu items and the daily summary, with the optional fields of the
    TypeScript interfaces written as `Option`. Money is a whole number of so'm. */
module Types {

  import opened Seqs

  datatype Option<+T> = None | Some(value: T)

  /** A string JavaScript treats as true: present and not empty. */
  predicate Truthy(s: Option<string>) { s.Some? && s.value != "" }

  /** A success value or an error message (a thrown `Error`, an `alert`). */
  datatype Result<+T> = Ok(value: T) | Err(message: string)

  datatype ItemStatus = Pending | Preparing | Ready | Served | Cancelled

  datatype PaymentType = Cash | Card | Click

  datatype OrderType = DineIn | Saboy

  datatype PaymentStatus = Unpaid | Paid

  /** One line of an order, as the kitchen and the backend see it. */
  datatype OrderItem = OrderItem(
    id: string,
    name: string,
    quantity: int,
    price: int,
    status: ItemStatus)

  datatype Waiter = Waiter(id: string, name: string)

  /** A guest's tab. `total`, `serviceFee` and `grandTotal` are the backend's
      figures; the client shows them and never recomputes them. */
  datatype Order = Order(
    id: string,
    orderNumber: int,
    orderType: Option<OrderType>,
    tableName: string,
    items: seq<OrderItem>,
    paymentStatus: PaymentStatus,
    total: int,
    serviceFee: int,
    grandTotal: int,
    waiter: Waiter)

  /** A dish on the menu, as both item pickers load it. */
  datatype MenuItem = MenuItem(id: string, name: string, price: int, category: string)

  /** An entry of the takeaway cart. */
  datatype SaboyItem = SaboyItem(
    id: string,
    name: string,
    price: int,
    quantity: int,
    category: Option<string>)

  /** The backend's counters for the current day. */
  datatype DailySummary = DailySummary(
    totalRevenue: int,
    totalOrders: int,
    cashRevenue: int,
    cardRevenue: int,
    clickRevenue: int,
    activeOrders: int,
    paidOrders: int)

  /** One printed line of a payment receipt request. */
  datatype PrintItem = PrintItem(name: string, quantity: int, price: int)

  /** What the dashboard hands to the printer after a payment. */
  datatype PaymentData = PaymentData(
    orderId: string,
    orderNumber: int,
    tableName: string,
    waiterName: string,
    items: seq<PrintItem>,
    subtotal: int,
    serviceFee: int,
    total: int,
    paymentType: PaymentType,
    restaurantName: string,
    date: string)

  /** The lines of an order that are not cancelled (the `activeItems` of the
      payment dialog, the order card and the details dialog). */
  function ActiveItems(items: seq<OrderItem>): seq<OrderItem>
  {
    Filter(items, IsActive)
  }

  /** The cancelled lines, shown struck through. */
  function CancelledItems(items: seq<OrderItem>): seq<OrderItem>
  {
    Filter(items, IsCancelled)
  }

  predicate IsActive(item: OrderItem) { item.status != Cancelled }
  predicate IsCancelled(item: OrderItem) { item.status == Cancelled }

  function LineTotal(item: OrderItem): int { item.price * item.quantity }

  /** Σ price·quantity over the lines that are not cancelled. */
  function Subtotal(items: seq<OrderItem>): int
  {
    Sum(ActiveItems(items), LineTotal)
  }

}
