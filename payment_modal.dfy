/** The payment dialog: it lists an order's active lines with their subtotal,
    shows the backend's service fee and grand total, and closes only when the
    payment it hands to the dashboard succeeds. */
module PaymentModal {

  import opened Types
  import opened Seqs

  /** `activeItems` keeps exactly the lines that are not cancelled, in their
      original order: it distributes over concatenation and keeps a single
      line iff that line is not cancelled. */
  lemma ActiveItemsSpec(a: seq<OrderItem>, b: seq<OrderItem>, x: OrderItem)
    ensures forall y :: y in ActiveItems(a) <==> y in a && y.status != Cancelled
    ensures ActiveItems(a + b) == ActiveItems(a) + ActiveItems(b)
    ensures ActiveItems([x]) == if x.status != Cancelled then [x] else []
  {
    FilterAppend(a, b, IsActive);
  }

  /** `subtotal` grows line by line: a line that is not cancelled adds its
      price times its quantity, a cancelled line adds nothing. */
  lemma SubtotalSnoc(items: seq<OrderItem>, x: OrderItem)
    ensures Subtotal(items + [x]) == Subtotal(items) + if x.status != Cancelled then x.price * x.quantity else 0
  {
    FilterAppend(items, [x], IsActive);
    SumAppend(ActiveItems(items), ActiveItems([x]), LineTotal);
  }

  /** Changing anything about a cancelled line (its price, its quantity)
      leaves `subtotal` unchanged. */
  lemma SubtotalIgnoresCancelled(a: seq<OrderItem>, b: seq<OrderItem>)
    requires |a| == |b|
    requires forall i :: 0 <= i < |a| ==> (a[i].status == Cancelled <==> b[i].status == Cancelled)
    requires forall i :: 0 <= i < |a| && a[i].status != Cancelled ==> a[i] == b[i]
    ensures Subtotal(a) == Subtotal(b)
  {
    SumFilterCongruence(a, b, IsActive, LineTotal);
  }

  /** What the dialog shows for an order. */
  datatype PaymentView = PaymentView(
    lines: seq<OrderItem>,
    subtotal: int,
    serviceFee: int,
    grandTotal: int)

  /** The service fee and grand total are the order's stored figures and are
      not recomputed from the lines. */
  function View(order: Order): (v: PaymentView)
    ensures v.lines == ActiveItems(order.items)
    ensures v.subtotal == Sum(v.lines, LineTotal)
    ensures v.serviceFee == order.serviceFee && v.grandTotal == order.grandTotal
  {
    PaymentView(ActiveItems(order.items), Subtotal(order.items), order.serviceFee, order.grandTotal)
  }

  datatype CardOrCash = PayCash | PayCard

  /** The payment type the dashboard receives for the dialog's choice: only
      cash or card can be chosen here, never Click. */
  function ChosenType(c: CardOrCash): (t: PaymentType)
    ensures t != Click
    ensures t == Cash <==> c.PayCash?
    ensures t == Card <==> c.PayCard?
  {
    match c
    case PayCash => Cash
    case PayCard => Card
  }

  /** The `onConfirm(order._id, paymentType)` call the dialog makes. */
  datatype ConfirmCall = ConfirmCall(orderId: string, paymentType: CardOrCash)

  class PaymentDialog {
    var isOpen: bool
    var isLoading: bool
    var paymentType: CardOrCash

    constructor ()
      ensures isOpen && !isLoading && paymentType == PayCash
    {
      isOpen, isLoading, paymentType := true, false, PayCash;
    }

    /** `handleConfirm`: hand the payment to the dashboard; close the dialog
        only if it resolves (`resolved`), keep it open if it rejects, and end
        with the loading flag cleared either way. */
    method Confirm(order: Order, resolved: bool) returns (call: ConfirmCall)
      modifies this`isOpen, this`isLoading
      ensures call == ConfirmCall(order.id, paymentType)
      ensures !isLoading
      ensures isOpen == (old(isOpen) && !resolved)
    {
      isLoading := true;
      call := ConfirmCall(order.id, paymentType);
      if resolved {
        isOpen := false;
      }
      isLoading := false;
    }
  }
}
