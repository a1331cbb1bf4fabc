/** The cashier dashboard's state: the order list and the daily summary,
    updated by the push events `new-order`, `order-updated` and `order-paid`,
    by the refreshes it requests, and by a payment the cashier confirms. The
    backend's and the print agent's answers are parameters. */
module Dashboard {

  import opened Types
  import opened Seqs
  import Printer

  /** The summary before the first refresh; `clickRevenue` is absent from
      it and is taken as 0 here. */
  const InitialSummary: DailySummary := DailySummary(0, 0, 0, 0, 0, 0, 0)

  /** The `new-order` counter update. */
  function CountNewOrder(s: DailySummary): (r: DailySummary)
    ensures r.totalOrders == s.totalOrders + 1 && r.activeOrders == s.activeOrders + 1
    ensures r.totalRevenue == s.totalRevenue && r.cashRevenue == s.cashRevenue
    ensures r.cardRevenue == s.cardRevenue && r.clickRevenue == s.clickRevenue
    ensures r.paidOrders == s.paidOrders
  {
    s.(totalOrders := s.totalOrders + 1, activeOrders := s.activeOrders + 1)
  }

  /** `prev.map(o => o._id === id ? next : o)`. */
  function ReplaceById(orders: seq<Order>, id: string, next: Order): (r: seq<Order>)
    ensures |r| == |orders|
    ensures forall i :: 0 <= i < |orders| && orders[i].id != id ==> r[i] == orders[i]
    ensures forall i :: 0 <= i < |orders| && orders[i].id == id ==> r[i] == next
  {
    seq(|orders|, i requires 0 <= i < |orders| => if orders[i].id == id then next else orders[i])
  }

  /** `orders.find(o => o._id === id)` succeeds. */
  predicate Listed(orders: seq<Order>, id: string)
  {
    exists i :: 0 <= i < |orders| && orders[i].id == id
  }

  /** Replacing an id that is not listed changes nothing. */
  lemma ReplaceUnknown(orders: seq<Order>, id: string, next: Order)
    requires !Listed(orders, id)
    ensures ReplaceById(orders, id, next) == orders
  {
  }

  /** A listed order is replaced: the new order is in the list afterwards and,
      when it keeps the id, replacing it again with itself changes nothing. */
  lemma ReplaceListed(orders: seq<Order>, id: string, next: Order)
    requires Listed(orders, id)
    ensures next in ReplaceById(orders, id, next)
    ensures next.id == id ==> ReplaceById(ReplaceById(orders, id, next), id, next) == ReplaceById(orders, id, next)
  {
    var i :| 0 <= i < |orders| && orders[i].id == id;
    assert ReplaceById(orders, id, next)[i] == next;
  }

  /** The items sent to the printer: the order's lines that are not
      cancelled, in order, as name, quantity and price. */
  function PrintItems(items: seq<OrderItem>): (r: seq<PrintItem>)
    ensures |r| == |ActiveItems(items)|
    ensures forall i :: 0 <= i < |r| ==>
      r[i] == PrintItem(ActiveItems(items)[i].name, ActiveItems(items)[i].quantity, ActiveItems(items)[i].price)
  {
    var active := ActiveItems(items);
    seq(|active|, i requires 0 <= i < |active| => PrintItem(active[i].name, active[i].quantity, active[i].price))
  }

  function PrintLineTotal(p: PrintItem): int { p.price * p.quantity }

  lemma {:induction false} PrintItemsSum(active: seq<OrderItem>)
    ensures Sum(seq(|active|, i requires 0 <= i < |active| => PrintItem(active[i].name, active[i].quantity, active[i].price)),
                PrintLineTotal) == Sum(active, LineTotal)
  {
    if active != [] {
      var printed := seq(|active|, i requires 0 <= i < |active| => PrintItem(active[i].name, active[i].quantity, active[i].price));
      var rest := active[1..];
      assert printed[1..] == seq(|rest|, i requires 0 <= i < |rest| => PrintItem(rest[i].name, rest[i].quantity, rest[i].price));
      PrintItemsSum(rest);
    }
  }

  /** The printed lines add up to the subtotal the payment dialog showed. */
  lemma PrintItemsTotal(items: seq<OrderItem>)
    ensures Sum(PrintItems(items), PrintLineTotal) == Subtotal(items)
  {
    PrintItemsSum(ActiveItems(items));
  }

  /** The payload `handlePayment` hands to the printer for the order the
      backend returned: its lines that are not cancelled, its stored total as
      subtotal, its grand total as total, and "Restoran" when the restaurant
      has no name. */
  function PaymentPayload(paid: Order, paymentType: PaymentType, restaurantName: Option<string>, date: string)
    : (d: PaymentData)
    ensures d.items == PrintItems(paid.items)
    ensures d.subtotal == paid.total && d.serviceFee == paid.serviceFee && d.total == paid.grandTotal
    ensures d.orderId == paid.id && d.orderNumber == paid.orderNumber && d.tableName == paid.tableName
    ensures d.waiterName == paid.waiter.name && d.paymentType == paymentType && d.date == date
    ensures restaurantName.Some? && restaurantName.value != "" ==> d.restaurantName == restaurantName.value
    ensures restaurantName.None? || restaurantName.value == "" ==> d.restaurantName == "Restoran"
  {
    PaymentData(
      paid.id, paid.orderNumber, paid.tableName, paid.waiter.name,
      PrintItems(paid.items), paid.total, paid.serviceFee, paid.grandTotal, paymentType,
      if restaurantName.Some? && restaurantName.value != "" then restaurantName.value else "Restoran",
      date)
  }

  /** `localStorage.getItem("selectedPrinter") || undefined`, which the
      printer client then falls back to the same stored name: the payment is
      printed on the stored printer exactly when one is stored. */
  function SelectedPrinter(stored: Option<string>): (r: Option<string>)
    ensures Printer.ResolvePrinter(r, stored) == if Truthy(stored) then stored else None
  {
    if Truthy(stored) then stored else None
  }

  /** How a confirmed payment ended. */
  datatype PaymentOutcome =
    | NotListed                                             // no backend call
    | Rejected(message: string)                             // the backend refused
    | Settled(receipt: Printer.PrintAttempt<Printer.PaymentBody>)

  /** What a refresh (`loadData`) brings back. */
  datatype Snapshot = Snapshot(orders: seq<Order>, summary: DailySummary)

  class DashboardState {
    var orders: seq<Order>
    var summary: DailySummary
    /** The number of refreshes requested so far. */
    var reloads: nat

    /** Mounting the dashboard starts from empty state and requests the first
        refresh. */
    constructor ()
      ensures orders == [] && summary == InitialSummary && reloads == 1
    {
      orders, summary, reloads := [], InitialSummary, 1;
    }

    /** A refresh answered: both the list and the summary are replaced; a
        failed refresh leaves them as they were. */
    method Reloaded(reply: Result<Snapshot>)
      modifies this`orders, this`summary
      ensures reply.Ok? ==> orders == reply.value.orders && summary == reply.value.summary
      ensures reply.Err? ==> orders == old(orders) && summary == old(summary)
    {
      if reply.Ok? {
        orders, summary := reply.value.orders, reply.value.summary;
      }
    }

    /** `new-order`: the order goes first and two counters go up. */
    method OnNewOrder(order: Order)
      modifies this`orders, this`summary
      ensures orders == [order] + old(orders)
      ensures |orders| == |old(orders)| + 1 && orders[1..] == old(orders)
      ensures summary == CountNewOrder(old(summary))
    {
      orders := [order] + orders;
      summary := CountNewOrder(summary);
    }

    /** `order-updated`: the order with the same id is replaced in place. */
    method OnOrderUpdated(updated: Order)
      modifies this`orders
      ensures orders == ReplaceById(old(orders), updated.id, updated)
    {
      orders := ReplaceById(orders, updated.id, updated);
    }

    /** `order-paid`: the same replacement, then a refresh of the summary. */
    method OnOrderPaid(paid: Order)
      modifies this`orders, this`reloads
      ensures orders == ReplaceById(old(orders), paid.id, paid)
      ensures reloads == old(reloads) + 1
    {
      orders := ReplaceById(orders, paid.id, paid);
      reloads := reloads + 1;
    }

    /** `handlePayment`: nothing happens for an order that is not listed; a
        refused payment changes nothing; otherwise the receipt is sent to the
        stored printer, the order with `orderId` is replaced by the backend's
        paid order and a refresh is requested. The print result does not stop
        the update. */
    method HandlePayment(orderId: string, paymentType: PaymentType, backend: Result<Order>,
                         restaurantName: Option<string>, storedPrinter: Option<string>,
                         date: string, agent: Printer.AgentReply)
      returns (outcome: PaymentOutcome)
      modifies this`orders, this`reloads
      ensures !Listed(old(orders), orderId) ==>
        outcome == NotListed && orders == old(orders) && reloads == old(reloads)
      ensures Listed(old(orders), orderId) && backend.Err? ==>
        outcome == Rejected(backend.message) && orders == old(orders) && reloads == old(reloads)
      ensures Listed(old(orders), orderId) && backend.Ok? ==>
        && outcome == Settled(Printer.PrintPayment(
             PaymentPayload(backend.value, paymentType, restaurantName, date),
             SelectedPrinter(storedPrinter), storedPrinter, agent))
        && orders == ReplaceById(old(orders), orderId, backend.value)
        && reloads == old(reloads) + 1
    {
      if !Listed(orders, orderId) {
        return NotListed;
      }
      if backend.Err? {
        return Rejected(backend.message);
      }
      var paid := backend.value;
      var payload := PaymentPayload(paid, paymentType, restaurantName, date);
      var receipt := Printer.PrintPayment(payload, SelectedPrinter(storedPrinter), storedPrinter, agent);
      orders := ReplaceById(orders, orderId, paid);
      reloads := reloads + 1;
      return Settled(receipt);
    }
  }
}
