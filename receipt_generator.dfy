/** The receipts and reports printed as HTML pages: the payment receipt, the
    daily revenue report, the per-waiter report and the cancelled-items
    report. Each is modelled as its sequence of logical rows; amounts stay
    integers (their locale formatting is left to the printer page) and the
    current time is a parameter. */
module ReceiptGenerator {

  import opened Types
  import opened Seqs
  import opened Text

  /** The caption on the left of a two-column row. */
  datatype Caption =
    | Place | Date | Table | WaiterName | Cashier | KindColumn
    | ItemCount | Dishes | ServiceFee | Discount | GrandTotal | PaymentKind
    | CashSum | CardSum | UnpaidSum | Revenue | Overall | Total
  {
    function Text(): string
    {
      match this
      case Place => "Joyi:"
      case Date => "Sana:"
      case Table => "Stol:"
      case WaiterName => "Ofitsiant:"
      case Cashier => "Kassir:"
      case KindColumn => "To'lov turi"
      case ItemCount => "Jami:"
      case Dishes => "Taomlar:"
      case ServiceFee => "Xizmat haqi:"
      case Discount => "Chegirma:"
      case GrandTotal => "ITOGO:"
      case PaymentKind => "To'lov turi:"
      case CashSum => "Naqd pul:"
      case CardSum => "Plastik karta:"
      case UnpaidSum => "To'lanmagan:"
      case Revenue => "JAMI TUSHUM:"
      case Overall => "UMUMIY JAMI:"
      case Total => "JAMI:"
    }
  }

  /** One logical row of a printed page. */
  datatype Row =
    | Header(text: string)                           // large centred title
    | SubHeader(text: string)                        // smaller centred title
    | Centered(text: string)                         // plain centred line
    | Title(text: string)                            // bold centred line
    | Rule(double: bool)                             // 32 '=' or 32 '-'
    | Field(key: Caption, value: string)             // caption left, text right
    | Count(key: Caption, n: int)                    // "<n> ta"
    | Money(key: Caption, amount: int)               // "<amount> so'm"
    | Deduction(key: Caption, amount: int)           // "-<amount> so'm"
    | ColumnHeads                                    // Tovar / Soni / Summa
    | ItemLine(name: string, quantity: Option<int>, amount: int)
    | WaiterBlock(name: string, cash: int, card: int, unpaid: int, total: int)
    | PendingBanner(text: string)                    // dashed box
    | Footer                                         // *** KEPKET ***

  // ---------------------------------------------------------------------------
  // formatDateTime

  /** The calendar fields of a `Date` as its getters report them; `month` is
      the zero-based `getMonth()`. */
  datatype Moment = Moment(day: nat, month: nat, year: nat, hours: nat, minutes: nat)

  /** `String(n).padStart(2, '0')`. */
  function Pad2(n: nat): (r: string)
    ensures IsDigits(r) && ParseDecimal(r) == n
    ensures n < 100 ==> |r| == 2
    ensures n >= 10 ==> r == Decimal(n)
  {
    ParseDecimalOfDecimal(n);
    if n < 10 then
      ParseDecimalLeadingZero(Decimal(n));
      "0" + Decimal(n)
    else Decimal(n)
  }

  /** The number of decimal digits of a number below 10000. */
  lemma {:induction false} DecimalWidth(n: nat)
    ensures 1000 <= n < 10000 ==> |Decimal(n)| == 4
    ensures 100 <= n < 1000 ==> |Decimal(n)| == 3
    ensures 10 <= n < 100 ==> |Decimal(n)| == 2
  {
    if n >= 10 {
      DecimalWidth(n / 10);
    }
  }

  /** `DD.MM.YYYY HH:MM`. */
  function FormatDateTime(m: Moment): string
  {
    DatePart(m) + " " + TimePart(m)
  }

  function DatePart(m: Moment): string
  {
    Pad2(m.day) + "." + MonthYear(m)
  }

  function MonthYear(m: Moment): string
  {
    Pad2(m.month + 1) + "." + Decimal(m.year)
  }

  function TimePart(m: Moment): string
  {
    Pad2(m.hours) + ":" + Pad2(m.minutes)
  }

  /** `x + [c] + y` read back piece by piece. */
  lemma Pieces(x: string, c: char, y: string)
    ensures |x + [c] + y| == |x| + 1 + |y|
    ensures (x + [c] + y)[..|x|] == x && (x + [c] + y)[|x|] == c && (x + [c] + y)[|x| + 1..] == y
  {
    assert (x + [c] + y)[..|x|] == x;
    assert (x + [c] + y)[|x| + 1..] == y;
  }

  /** Two two-digit fields around a separator. */
  lemma TwoFields(x: string, c: char, y: string, n: nat, k: nat)
    requires |x| == 2 && IsDigits(x) && ParseDecimal(x) == n
    requires IsDigits(y) && ParseDecimal(y) == k
    ensures var r := x + [c] + y;
      |r| == 3 + |y| && r[2] == c
      && IsDigits(r[0..2]) && ParseDecimal(r[0..2]) == n
      && IsDigits(r[3..]) && ParseDecimal(r[3..]) == k
  {
    Pieces(x, c, y);
    assert (x + [c] + y)[0..2] == x;
  }

  /** `MM.YYYY` for a valid month and a four-digit year. */
  lemma MonthYearLayout(m: Moment)
    requires m.month < 12 && 1000 <= m.year < 10000
    ensures var r := MonthYear(m);
      |r| == 7 && r[2] == '.'
      && IsDigits(r[0..2]) && ParseDecimal(r[0..2]) == m.month + 1
      && IsDigits(r[3..]) && ParseDecimal(r[3..]) == m.year
  {
    DecimalWidth(m.year);
    ParseDecimalOfDecimal(m.year);
    TwoFields(Pad2(m.month + 1), '.', Decimal(m.year), m.month + 1, m.year);
  }

  /** `DD.MM.YYYY` for a valid day and month and a four-digit year. */
  lemma DatePartLayout(m: Moment)
    requires 1 <= m.day <= 31 && m.month < 12 && 1000 <= m.year < 10000
    ensures var r := DatePart(m);
      |r| == 10 && r[2] == '.' && r[5] == '.'
      && IsDigits(r[0..2]) && ParseDecimal(r[0..2]) == m.day
      && IsDigits(r[3..5]) && ParseDecimal(r[3..5]) == m.month + 1
      && IsDigits(r[6..10]) && ParseDecimal(r[6..10]) == m.year
  {
    var my := MonthYear(m);
    MonthYearLayout(m);
    Pieces(Pad2(m.day), '.', my);
    var r := DatePart(m);
    assert r[0..2] == Pad2(m.day);
    assert r[3..5] == my[0..2];
    assert r[6..10] == my[3..];
  }

  /** `HH:MM` for a valid hour and minute. */
  lemma TimePartLayout(m: Moment)
    requires m.hours < 24 && m.minutes < 60
    ensures var r := TimePart(m);
      |r| == 5 && r[2] == ':'
      && IsDigits(r[0..2]) && ParseDecimal(r[0..2]) == m.hours
      && IsDigits(r[3..5]) && ParseDecimal(r[3..5]) == m.minutes
  {
    TwoFields(Pad2(m.hours), ':', Pad2(m.minutes), m.hours, m.minutes);
    assert TimePart(m)[3..5] == TimePart(m)[3..];
  }

  /** For a date the `Date` getters can return and a four-digit year, the
      text is 16 characters long with its separators at fixed places, and
      each field reads back as the value it shows. */
  lemma FormatDateTimeLayout(m: Moment)
    requires 1 <= m.day <= 31 && m.month < 12 && m.hours < 24 && m.minutes < 60
    requires 1000 <= m.year < 10000
    ensures var r := FormatDateTime(m);
      |r| == 16 && r[10] == ' ' && r[..10] == DatePart(m) && r[11..] == TimePart(m)
  {
    DatePartLayout(m);
    TimePartLayout(m);
    Pieces(DatePart(m), ' ', TimePart(m));
  }

  // ---------------------------------------------------------------------------
  // Defaults shared by the generators

  /** `x || 0` for an optional number. */
  function OrZero(x: Option<int>): int { if x.Some? then x.value else 0 }

  /** `quantity || 1`: a missing or zero quantity counts as one. */
  function OrOne(x: Option<int>): (r: int)
    ensures r != 0
    ensures x.Some? && x.value != 0 ==> r == x.value
  {
    if x.Some? && x.value != 0 then x.value else 1
  }

  /** `s || fallback` for an optional string. */
  function OrText(s: Option<string>, fallback: string): (r: string)
    ensures s.Some? && s.value != "" ==> r == s.value
    ensures s.None? || s.value == "" ==> r == fallback
  {
    if s.Some? && s.value != "" then s.value else fallback
  }

  /** `(price || 0) * (quantity || 1)`. */
  function LineAmount(price: Option<int>, quantity: Option<int>): (r: int)
    ensures price.None? ==> r == 0
    ensures quantity.None? || quantity == Some(0) ==> r == OrZero(price)
    ensures price.Some? && quantity.Some? && quantity.value != 0 ==> r == price.value * quantity.value
  {
    OrZero(price) * OrOne(quantity)
  }

  /** `x && x > 0` on an optional number. */
  predicate Positive(x: Option<int>) { x.Some? && x.value > 0 }

  /** The head shared by the three reports. */
  function ReportHead(subtitle: string, restaurantName: string, date: string): seq<Row>
  {
    [Header("HISOBOT"), SubHeader(subtitle), Rule(false),
     Field(Place, if restaurantName == "" then "Restoran" else restaurantName),
     Field(Date, date), Rule(true)]
  }

  // ---------------------------------------------------------------------------
  // generatePaymentReceiptHTML

  datatype PaymentItem = PaymentItem(foodName: string, quantity: Option<int>, price: Option<int>)

  datatype ReceiptData = ReceiptData(
    items: Option<seq<PaymentItem>>,
    tableName: string,
    waiterName: Option<string>,
    cashierName: Option<string>,
    restaurantName: string,
    restaurantAddress: Option<string>,
    itemsTotal: int,
    serviceFee: Option<int>,
    discount: Option<int>,
    totalPrice: int,
    paymentType: string,
    isPaid: Option<bool>)

  /** `data.items || []`. */
  function ReceiptItems(data: ReceiptData): seq<PaymentItem>
  {
    if data.items.Some? then data.items.value else []
  }

  /** `data.isPaid !== false`: only an explicit false makes a bill. */
  predicate IsPaid(data: ReceiptData) { data.isPaid != Some(false) }

  /** `paymentTypeText`: NAQD for cash, KARTA for card, any other type shown
      in capitals. */
  function PaymentTypeText(paymentType: string): (r: string)
    ensures paymentType == "cash" ==> r == "NAQD"
    ensures paymentType == "card" ==> r == "KARTA"
    ensures paymentType != "cash" && paymentType != "card" ==>
      |r| == |paymentType| && forall i :: 0 <= i < |r| ==> r[i] == Upper(paymentType[i])
  {
    if paymentType == "cash" then "NAQD"
    else if paymentType == "card" then "KARTA"
    else ToUpper(paymentType)
  }

  /** A printed receipt line shows the dish's name and the quantity as given
      (even a missing one); its amount counts a missing or zero quantity as one. */
  function PaymentItemRow(item: PaymentItem): (r: Row)
    ensures r.ItemLine? && r.name == item.foodName && r.quantity == item.quantity
    ensures r.amount == LineAmount(item.price, item.quantity)
  {
    ItemLine(item.foodName, item.quantity, LineAmount(item.price, item.quantity))
  }

  function PaymentItemRows(items: seq<PaymentItem>): (r: seq<Row>)
    ensures |r| == |items|
    ensures forall i :: 0 <= i < |items| ==> r[i] == PaymentItemRow(items[i])
    ensures forall x :: x in r ==> x.ItemLine?
  {
    seq(|items|, i requires 0 <= i < |items| => PaymentItemRow(items[i]))
  }

  /** The restaurant's name (or RESTORAN) and its address when given. */
  function Brand(data: ReceiptData): (r: seq<Row>)
    ensures forall x :: x in r ==> x.Header? || x.Centered?
  {
    [Header(if data.restaurantName == "" then "RESTORAN" else data.restaurantName)]
    + (if Truthy(data.restaurantAddress) then [Centered(data.restaurantAddress.value)] else [])
  }

  /** The title between two rules, the time and the table (or '-'). */
  function Heading(data: ReceiptData, stamp: string): (r: seq<Row>)
    ensures Title(if IsPaid(data) then "TO'LOV CHEKI" else "HISOB") in r
    ensures forall x :: x in r ==>
      x.Rule? || x.Field? || (x.Title? && x.text == if IsPaid(data) then "TO'LOV CHEKI" else "HISOB")
    ensures forall x :: x in r && x.Field? ==> x.key == Date || x.key == Table
  {
    [Rule(false), Title(if IsPaid(data) then "TO'LOV CHEKI" else "HISOB"), Rule(false),
     Field(Date, stamp), Field(Table, if data.tableName == "" then "-" else data.tableName)]
  }

  /** The waiter and cashier when given, then the column heads. */
  function Parties(data: ReceiptData): (r: seq<Row>)
    ensures forall x :: x in r ==> x.Rule? || x.ColumnHeads? || (x.Field? && (x.key == WaiterName || x.key == Cashier))
  {
    (if Truthy(data.waiterName) then [Field(WaiterName, data.waiterName.value)] else [])
    + (if Truthy(data.cashierName) then [Field(Cashier, data.cashierName.value)] else [])
    + [Rule(true), ColumnHeads, Rule(false)]
  }

  /** The count, the dishes' total, the positive fee and discount, ITOGO. */
  function Totals(data: ReceiptData): (r: seq<Row>)
    ensures Count(ItemCount, |ReceiptItems(data)|) in r
    ensures Positive(data.serviceFee) ==> Money(ServiceFee, data.serviceFee.value) in r
    ensures Positive(data.discount) ==> Deduction(Discount, data.discount.value) in r
    ensures forall x :: x in r ==> x.Rule? || x.Count? || x.Money? || x.Deduction?
    ensures forall x :: x in r && x.Money? && x.key == ServiceFee ==> Positive(data.serviceFee)
    ensures forall x :: x in r && x.Deduction? ==> Positive(data.discount)
  {
    [Rule(true), Count(ItemCount, |ReceiptItems(data)|), Money(Dishes, data.itemsTotal)]
    + (if Positive(data.serviceFee) then [Money(ServiceFee, data.serviceFee.value)] else [])
    + (if Positive(data.discount) then [Deduction(Discount, data.discount.value)] else [])
    + [Money(GrandTotal, data.totalPrice), Rule(false)]
  }

  /** The payment type of a paid receipt, then thanks or the pending banner. */
  function Closing(data: ReceiptData): (r: seq<Row>)
    ensures PendingBanner("TO'LOV KUTILMOQDA") in r <==> !IsPaid(data)
    ensures IsPaid(data) ==> Field(PaymentKind, PaymentTypeText(data.paymentType)) in r
    ensures forall x :: x in r ==> x.Rule? || x.Footer? || x.Centered? || x.PendingBanner? || x.Field?
    ensures forall x :: x in r && x.Field? ==> x.key == PaymentKind && IsPaid(data)
  {
    (if IsPaid(data) then [Field(PaymentKind, PaymentTypeText(data.paymentType))] else [])
    + [Rule(true),
       if IsPaid(data) then Centered("Xaridingiz uchun rahmat!") else PendingBanner("TO'LOV KUTILMOQDA"),
       Rule(false), Footer]
  }

  function PaymentReceiptRows(data: ReceiptData, stamp: string): seq<Row>
  {
    Brand(data) + Heading(data, stamp) + Parties(data)
    + PaymentItemRows(ReceiptItems(data)) + Totals(data) + Closing(data)
  }

  /** `generatePaymentReceiptHTML`: the item lines are appended one per item. */
  method PaymentReceipt(data: ReceiptData, now: Moment) returns (rows: seq<Row>)
    ensures rows == PaymentReceiptRows(data, FormatDateTime(now))
  {
    var items := ReceiptItems(data);
    var lines: seq<Row> := [];
    var i := 0;
    while i < |items|
      invariant 0 <= i <= |items|
      invariant lines == PaymentItemRows(items[..i])
    {
      lines := lines + [PaymentItemRow(items[i])];
      i := i + 1;
    }
    assert items[..i] == items;
    rows := Brand(data) + Heading(data, FormatDateTime(now)) + Parties(data) + lines + Totals(data) + Closing(data);
  }

  /** Which section of a receipt each kind of row can come from, given what
      each section may hold. */
  lemma SectionOf(b: seq<Row>, h: seq<Row>, p: seq<Row>, i: seq<Row>, t: seq<Row>, c: seq<Row>)
    requires forall x :: x in b ==> x.Header? || x.Centered?
    requires forall x :: x in h ==> x.Rule? || x.Title? || (x.Field? && (x.key == Date || x.key == Table))
    requires forall x :: x in p ==> x.Rule? || x.ColumnHeads? || (x.Field? && (x.key == WaiterName || x.key == Cashier))
    requires forall x :: x in i ==> x.ItemLine?
    requires forall x :: x in t ==> x.Rule? || x.Count? || x.Money? || x.Deduction?
    requires forall x :: x in c ==> x.Rule? || x.Footer? || x.Centered? || x.PendingBanner? || (x.Field? && x.key == PaymentKind)
    ensures forall x :: x in b + h + p + i + t + c && x.Title? ==> x in h
    ensures forall x :: x in b + h + p + i + t + c && (x.PendingBanner? || (x.Field? && x.key == PaymentKind)) ==> x in c
    ensures forall x :: x in b + h + p + i + t + c && (x.Deduction? || x.Money?) ==> x in t
  {
  }

  /** The sections of a payment receipt and what each may hold. */
  lemma ReceiptSections(data: ReceiptData, stamp: string)
    ensures var rows := PaymentReceiptRows(data, stamp);
      (forall x :: x in rows && x.Title? ==> x in Heading(data, stamp))
      && (forall x :: x in rows && (x.PendingBanner? || (x.Field? && x.key == PaymentKind)) ==> x in Closing(data))
      && (forall x :: x in rows && (x.Deduction? || x.Money?) ==> x in Totals(data))
  {
    SectionOf(Brand(data), Heading(data, stamp), Parties(data),
      PaymentItemRows(ReceiptItems(data)), Totals(data), Closing(data));
  }

  /** A receipt is paid unless `isPaid` is false: a paid receipt is titled
      TO'LOV CHEKI, a bill HISOB, and that is its only title row. */
  lemma ReceiptTitle(data: ReceiptData, stamp: string)
    ensures var rows := PaymentReceiptRows(data, stamp);
      var title := if IsPaid(data) then "TO'LOV CHEKI" else "HISOB";
      Title(title) in rows && forall x :: x in rows && x.Title? ==> x.text == title
  {
    ReceiptSections(data, stamp);
  }

  /** A bill carries the pending banner and has no payment-type row; a paid
      receipt has no banner and names the payment type. */
  lemma ReceiptClosing(data: ReceiptData, stamp: string)
    ensures var rows := PaymentReceiptRows(data, stamp);
      (PendingBanner("TO'LOV KUTILMOQDA") in rows <==> !IsPaid(data))
      && (IsPaid(data) ==> Field(PaymentKind, PaymentTypeText(data.paymentType)) in rows)
      && (!IsPaid(data) ==> forall x :: x in rows ==> !(x.Field? && x.key == PaymentKind))
  {
    ReceiptSections(data, stamp);
  }

  /** The service-fee and discount rows appear only for positive amounts,
      and the count row shows the number of items. */
  lemma OptionalRows(data: ReceiptData, stamp: string)
    ensures var rows := PaymentReceiptRows(data, stamp);
      Count(ItemCount, |ReceiptItems(data)|) in rows
      && (Positive(data.serviceFee) ==> Money(ServiceFee, data.serviceFee.value) in rows)
      && (!Positive(data.serviceFee) ==> forall x :: x in rows ==> !(x.Money? && x.key == ServiceFee))
      && (Positive(data.discount) ==> Deduction(Discount, data.discount.value) in rows)
      && (!Positive(data.discount) ==> forall x :: x in rows ==> !x.Deduction?)
  {
    ReceiptSections(data, stamp);
  }

  // ---------------------------------------------------------------------------
  // generateReportReceiptHTML

  datatype ReportData = ReportData(restaurantName: string, totalCash: int, totalCard: int, totalUnpaid: Option<int>)

  /** `generateReportReceiptHTML`: the revenue total is cash plus card; the
      unpaid amount has a row only when it is defined and is never added in. */
  function ReportReceiptRows(data: ReportData, stamp: string): (rows: seq<Row>)
    ensures Money(Revenue, data.totalCash + data.totalCard) in rows
    ensures forall x :: x in rows && x.Money? && x.key == Revenue ==>
      x.amount == data.totalCash + data.totalCard
    ensures data.totalUnpaid.Some? ==> Money(UnpaidSum, data.totalUnpaid.value) in rows
    ensures data.totalUnpaid.None? ==> forall x :: x in rows ==> !(x.Money? && x.key == UnpaidSum)
  {
    ReportHead("UMUMIY TUSHUM", data.restaurantName, stamp)
    + [Field(KindColumn, "Summa"), Rule(false),
       Money(CashSum, data.totalCash), Money(CardSum, data.totalCard)]
    + (if data.totalUnpaid.Some? then [Money(UnpaidSum, data.totalUnpaid.value)] else [])
    + [Rule(true), Money(Revenue, data.totalCash + data.totalCard), Rule(false), Footer]
  }

  // ---------------------------------------------------------------------------
  // generateWaiterReportHTML

  datatype WaiterData = WaiterData(name: Option<string>, cash: Option<int>, card: Option<int>, unpaid: Option<int>)

  datatype WaiterReportData = WaiterReportData(restaurantName: string, waiters: Option<seq<WaiterData>>)

  function ReportWaiters(data: WaiterReportData): seq<WaiterData>
  {
    if data.waiters.Some? then data.waiters.value else []
  }

  /** `(w.cash || 0) + (w.card || 0)`: the unpaid amount is not part of it. */
  function WaiterTotal(w: WaiterData): int { OrZero(w.cash) + OrZero(w.card) }

  /** A waiter's block (followed on paper by a '-' rule): the name (or nothing),
      the cash, card and unpaid figures (0 when missing), and a JAMI that is the
      cash figure plus the card figure. */
  function WaiterRow(w: WaiterData): (r: Row)
    ensures r.WaiterBlock? && r.total == r.cash + r.card
    ensures r.name == OrText(w.name, "")
    ensures r.cash == OrZero(w.cash) && r.card == OrZero(w.card) && r.unpaid == OrZero(w.unpaid)
  {
    WaiterBlock(OrText(w.name, ""), OrZero(w.cash), OrZero(w.card), OrZero(w.unpaid), WaiterTotal(w))
  }

  function WaiterRows(ws: seq<WaiterData>): (r: seq<Row>)
    ensures |r| == |ws| && forall i :: 0 <= i < |ws| ==> r[i] == WaiterRow(ws[i])
  {
    seq(|ws|, i requires 0 <= i < |ws| => WaiterRow(ws[i]))
  }

  function WaiterReportRows(data: WaiterReportData, stamp: string): seq<Row>
  {
    var ws := ReportWaiters(data);
    ReportHead("OFITSIANTLAR BO'YICHA", data.restaurantName, stamp)
    + WaiterRows(ws)
    + [Rule(true), Money(Overall, Sum(ws, WaiterTotal)), Rule(false), Footer]
  }

  function BlockTotal(r: Row): int { if r.WaiterBlock? then r.total else 0 }

  /** The grand total is the sum of the JAMI figures of the printed blocks. */
  lemma {:induction false} GrandTotalOfBlocks(ws: seq<WaiterData>)
    ensures Sum(ws, WaiterTotal) == Sum(WaiterRows(ws), BlockTotal)
  {
    if ws != [] {
      GrandTotalOfBlocks(ws[1..]);
      assert WaiterRows(ws)[1..] == WaiterRows(ws[1..]);
    }
  }

  /** Unpaid amounts never reach the grand total: two waiter lists that agree
      on every cash and card figure have the same grand total. */
  lemma {:induction false} GrandTotalIgnoresUnpaid(ws: seq<WaiterData>, vs: seq<WaiterData>)
    requires |ws| == |vs|
    requires forall i :: 0 <= i < |ws| ==> ws[i].cash == vs[i].cash && ws[i].card == vs[i].card
    ensures Sum(ws, WaiterTotal) == Sum(vs, WaiterTotal)
  {
    if ws != [] {
      GrandTotalIgnoresUnpaid(ws[1..], vs[1..]);
    }
  }

  lemma SumSnoc<T>(s: seq<T>, i: int, f: T -> int)
    requires 0 <= i < |s|
    ensures Sum(s[..i + 1], f) == Sum(s[..i], f) + f(s[i])
  {
    assert s[..i + 1] == s[..i] + [s[i]];
    SumAppend(s[..i], [s[i]], f);
  }

  /** `generateWaiterReportHTML`: one pass adds up the grand total, a second
      appends one block per waiter. */
  method WaiterReport(data: WaiterReportData, now: Moment) returns (rows: seq<Row>)
    ensures rows == WaiterReportRows(data, FormatDateTime(now))
  {
    var ws := ReportWaiters(data);
    var totalAll := 0;
    var i := 0;
    while i < |ws|
      invariant 0 <= i <= |ws|
      invariant totalAll == Sum(ws[..i], WaiterTotal)
    {
      SumSnoc(ws, i, WaiterTotal);
      totalAll := totalAll + (OrZero(ws[i].cash) + OrZero(ws[i].card));
      i := i + 1;
    }
    assert ws[..i] == ws;
    var blocks: seq<Row> := [];
    i := 0;
    while i < |ws|
      invariant 0 <= i <= |ws|
      invariant blocks == WaiterRows(ws[..i])
    {
      blocks := blocks + [WaiterRow(ws[i])];
      i := i + 1;
    }
    assert ws[..i] == ws;
    rows := ReportHead("OFITSIANTLAR BO'YICHA", data.restaurantName, FormatDateTime(now))
      + blocks + [Rule(true), Money(Overall, totalAll), Rule(false), Footer];
  }

  // ---------------------------------------------------------------------------
  // generateCancelledReportHTML

  datatype CancelledItem = CancelledItem(foodName: Option<string>, quantity: Option<int>, price: Option<int>)

  datatype CancelledReportData = CancelledReportData(restaurantName: string, items: Option<seq<CancelledItem>>)

  function CancelledItems(data: CancelledReportData): seq<CancelledItem>
  {
    if data.items.Some? then data.items.value else []
  }

  function CancelledAmount(item: CancelledItem): int { LineAmount(item.price, item.quantity) }

  /** A cancelled line shows `quantity || 1`, the same quantity its amount uses. */
  function CancelledRow(item: CancelledItem): (r: Row)
    ensures r.ItemLine? && r.quantity == Some(OrOne(item.quantity))
    ensures r.amount == OrZero(item.price) * r.quantity.value
  {
    ItemLine(OrText(item.foodName, ""), Some(OrOne(item.quantity)), CancelledAmount(item))
  }

  function CancelledRows(items: seq<CancelledItem>): (r: seq<Row>)
    ensures |r| == |items| && forall i :: 0 <= i < |items| ==> r[i] == CancelledRow(items[i])
  {
    seq(|items|, i requires 0 <= i < |items| => CancelledRow(items[i]))
  }

  function CancelledReportRows(data: CancelledReportData, stamp: string): seq<Row>
  {
    var items := CancelledItems(data);
    ReportHead("BEKOR QILINGANLAR", data.restaurantName, stamp)
    + [ColumnHeads, Rule(false)]
    + CancelledRows(items)
    + [Rule(true), Money(Total, Sum(items, CancelledAmount)), Rule(false), Footer]
  }

  function LineAmountOf(r: Row): int { if r.ItemLine? then r.amount else 0 }

  /** The JAMI of the cancelled report is the sum of the printed line amounts. */
  lemma {:induction false} CancelledTotalOfLines(items: seq<CancelledItem>)
    ensures Sum(items, CancelledAmount) == Sum(CancelledRows(items), LineAmountOf)
  {
    if items != [] {
      CancelledTotalOfLines(items[1..]);
      assert CancelledRows(items)[1..] == CancelledRows(items[1..]);
    }
  }

  /** `generateCancelledReportHTML`: one pass adds up the total, a second
      appends one line per item. */
  method CancelledReport(data: CancelledReportData, now: Moment) returns (rows: seq<Row>)
    ensures rows == CancelledReportRows(data, FormatDateTime(now))
  {
    var items := CancelledItems(data);
    var total := 0;
    var i := 0;
    while i < |items|
      invariant 0 <= i <= |items|
      invariant total == Sum(items[..i], CancelledAmount)
    {
      SumSnoc(items, i, CancelledAmount);
      total := total + OrZero(items[i].price) * OrOne(items[i].quantity);
      i := i + 1;
    }
    assert items[..i] == items;
    var lines: seq<Row> := [];
    i := 0;
    while i < |items|
      invariant 0 <= i <= |items|
      invariant lines == CancelledRows(items[..i])
    {
      lines := lines + [CancelledRow(items[i])];
      i := i + 1;
    }
    assert items[..i] == items;
    rows := ReportHead("BEKOR QILINGANLAR", data.restaurantName, FormatDateTime(now))
      + [ColumnHeads, Rule(false)] + lines
      + [Rule(true), Money(Total, total), Rule(false), Footer];
  }
}
