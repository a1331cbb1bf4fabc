/** The client of the local print agent: which printer to use, the body of a
    payment print request, the test page and the daily report's text lines.
    The agent's answer (or its absence) is a parameter. */
module Printer {

  import opened Types
  import opened Text

  const NoPrinterForPayment: string := "Printer tanlanmagan. Sozlamalardan printer tanlang."
  const NoPrinter: string := "Printer tanlanmagan"
  const AgentUnreachable: string := "Printer server bilan bog'lanib bo'lmadi"

  const Dashes: string := "--------------------------------"
  const Equals: string := "================================"

  /** `{ success, error? }` as the agent (or the client itself) reports it. */
  datatype PrintResult = PrintResult(success: bool, error: Option<string>)

  /** What came back from the agent: its JSON answer, or nothing because the
      request or the parsing of the answer threw. */
  datatype AgentReply = Answered(result: PrintResult) | Unreachable

  /** One print call: the request body that was sent, if any, and the result. */
  datatype PrintAttempt<B> = PrintAttempt(sent: Option<B>, result: PrintResult)

  /** `printerName || localStorage.getItem('selectedPrinter')`, refused when
      the outcome is missing or empty. */
  function ResolvePrinter(explicit: Option<string>, stored: Option<string>): (r: Option<string>)
    ensures r.Some? ==> r.value != ""
    ensures Truthy(explicit) ==> r == explicit
    ensures !Truthy(explicit) ==> (r.Some? <==> Truthy(stored)) && (r.Some? ==> r == stored)
  {
    if Truthy(explicit) then explicit else if Truthy(stored) then stored else None
  }

  /** The result once a request was sent: the agent's answer, or the
      connection error when the call threw. */
  function AfterSend(reply: AgentReply): (r: PrintResult)
    ensures reply.Unreachable? ==> r == PrintResult(false, Some(AgentUnreachable))
    ensures reply.Answered? ==> r == reply.result
  {
    match reply
    case Answered(result) => result
    case Unreachable => PrintResult(false, Some(AgentUnreachable))
  }

  datatype PaymentLine = PaymentLine(foodName: string, quantity: int, price: int)

  datatype PaymentBody = PaymentBody(
    printerName: string,
    restaurantName: string,
    tableName: string,
    waiterName: string,
    items: seq<PaymentLine>,
    totalPrice: int,
    serviceFee: int,
    discount: int)

  /** The body of `/print/payment`: the items keep their number and order,
      `name` becomes `foodName`, the total price is the payment's total and
      the discount is always 0. */
  function PaymentBodyOf(data: PaymentData, printer: string): (b: PaymentBody)
    ensures |b.items| == |data.items|
    ensures forall i :: 0 <= i < |data.items| ==>
      b.items[i] == PaymentLine(data.items[i].name, data.items[i].quantity, data.items[i].price)
    ensures b.printerName == printer && b.totalPrice == data.total
    ensures b.serviceFee == data.serviceFee && b.discount == 0
    ensures b.restaurantName == data.restaurantName && b.tableName == data.tableName
    ensures b.waiterName == data.waiterName
  {
    PaymentBody(
      printer, data.restaurantName, data.tableName, data.waiterName,
      seq(|data.items|, i requires 0 <= i < |data.items| =>
        PaymentLine(data.items[i].name, data.items[i].quantity, data.items[i].price)),
      data.total, data.serviceFee, 0)
  }

  /** `printPayment`: without a printer nothing is sent and the call fails
      with the "choose a printer" message. */
  function PrintPayment(data: PaymentData, explicit: Option<string>, stored: Option<string>, reply: AgentReply)
    : (a: PrintAttempt<PaymentBody>)
    ensures a.sent.None? <==> ResolvePrinter(explicit, stored).None?
    ensures a.sent.None? ==> a.result == PrintResult(false, Some(NoPrinterForPayment))
    ensures a.sent.Some? ==> a.sent.value == PaymentBodyOf(data, ResolvePrinter(explicit, stored).value)
                             && a.result == AfterSend(reply)
  {
    var printer := ResolvePrinter(explicit, stored);
    if printer.None? then PrintAttempt(None, PrintResult(false, Some(NoPrinterForPayment)))
    else PrintAttempt(Some(PaymentBodyOf(data, printer.value)), AfterSend(reply))
  }

  datatype TestBody = TestBody(printerName: string, restaurantName: string)

  /** `printTest`: the restaurant name defaults to KEPKET when not given. */
  function PrintTest(explicit: Option<string>, stored: Option<string>, restaurantName: Option<string>, reply: AgentReply)
    : (a: PrintAttempt<TestBody>)
    ensures a.sent.None? <==> ResolvePrinter(explicit, stored).None?
    ensures a.sent.None? ==> a.result == PrintResult(false, Some(NoPrinter))
    ensures a.sent.Some? ==> a.result == AfterSend(reply)
    ensures a.sent.Some? ==> a.sent.value.printerName == ResolvePrinter(explicit, stored).value
    ensures a.sent.Some? && restaurantName.None? ==> a.sent.value.restaurantName == "KEPKET"
    ensures a.sent.Some? && restaurantName.Some? ==> a.sent.value.restaurantName == restaurantName.value
  {
    var printer := ResolvePrinter(explicit, stored);
    if printer.None? then PrintAttempt(None, PrintResult(false, Some(NoPrinter)))
    else
      var name := if restaurantName.Some? then restaurantName.value else "KEPKET";
      PrintAttempt(Some(TestBody(printer.value, name)), AfterSend(reply))
  }

  // ---------------------------------------------------------------------------
  // The daily report

  datatype WaiterStat = WaiterStat(name: string, orders: int, revenue: int)

  datatype DailyReport = DailyReport(
    restaurantName: string,
    date: Option<string>,
    totalOrders: Option<int>,
    totalRevenue: Option<int>,
    cashRevenue: Option<int>,
    cardRevenue: Option<int>,
    waiterStats: Option<seq<WaiterStat>>)

  /** The waiters listed in the report (none when the field is missing). */
  function Waiters(report: DailyReport): seq<WaiterStat>
  {
    if report.waiterStats.Some? then report.waiterStats.value else []
  }

  function WaiterLine(w: WaiterStat, fmt: int -> string): string
  {
    w.name + ": " + IntToString(w.orders) + " ta, " + fmt(w.revenue)
  }

  function Optional(field: Option<int>, line: int -> string): (r: seq<string>)
    ensures |r| == if field.Some? then 1 else 0
    ensures field.Some? ==> r == [line(field.value)]
  {
    if field.Some? then [line(field.value)] else []
  }

  /** The fixed lines before the waiter section; `fmt` is the locale number
      formatting, `today` the locale date used when no date is given. */
  function ReportHead(report: DailyReport, today: string, fmt: int -> string): seq<string>
  {
    [if report.restaurantName == "" then "RESTORAN" else report.restaurantName,
     Equals, "KUNLIK HISOBOT", Equals,
     "Sana: " + (if Truthy(report.date) then report.date.value else today)]
    + Optional(report.totalOrders, n => "Buyurtmalar: " + IntToString(n) + " ta")
    + [Dashes]
    + Optional(report.cashRevenue, n => "Naqd: " + fmt(n) + " so'm")
    + Optional(report.cardRevenue, n => "Karta: " + fmt(n) + " so'm")
    + [Equals]
    + Optional(report.totalRevenue, n => "JAMI: " + fmt(n) + " so'm")
  }

  function Count(field: Option<int>): nat { if field.Some? then 1 else 0 }

  function WaiterLines(ws: seq<WaiterStat>, fmt: int -> string): (r: seq<string>)
    ensures |r| == |ws|
  {
    seq(|ws|, i requires 0 <= i < |ws| => WaiterLine(ws[i], fmt))
  }

  lemma WaiterLinesSnoc(ws: seq<WaiterStat>, i: int, fmt: int -> string)
    requires 0 <= i < |ws|
    ensures WaiterLines(ws[..i + 1], fmt) == WaiterLines(ws[..i], fmt) + [WaiterLine(ws[i], fmt)]
  {
  }

  /** The waiter section: a titled block with one line per waiter, or nothing. */
  function WaiterSection(report: DailyReport, fmt: int -> string): seq<string>
  {
    if |Waiters(report)| > 0 then [Dashes, "OFITSIANTLAR:", Dashes] + WaiterLines(Waiters(report), fmt)
    else []
  }

  /** The report's lines, in the order the print agent receives them. */
  function DailyReportLines(report: DailyReport, today: string, fmt: int -> string): seq<string>
  {
    ReportHead(report, today, fmt) + WaiterSection(report, fmt) + [Equals]
  }

  /** The head has its seven fixed lines plus one per defined figure, and
      starts with the restaurant's name (or RESTORAN). */
  lemma ReportHeadShape(report: DailyReport, today: string, fmt: int -> string)
    ensures |ReportHead(report, today, fmt)| == 7 + Count(report.totalOrders) + Count(report.cashRevenue)
                                                   + Count(report.cardRevenue) + Count(report.totalRevenue)
    ensures ReportHead(report, today, fmt)[0] ==
      if report.restaurantName == "" then "RESTORAN" else report.restaurantName
  {
  }

  /** Each defined figure's line is in the head. */
  lemma ReportHeadFigures(report: DailyReport, today: string, fmt: int -> string)
    ensures report.totalOrders.Some? ==>
      "Buyurtmalar: " + IntToString(report.totalOrders.value) + " ta" in ReportHead(report, today, fmt)
    ensures report.cashRevenue.Some? ==>
      "Naqd: " + fmt(report.cashRevenue.value) + " so'm" in ReportHead(report, today, fmt)
    ensures report.cardRevenue.Some? ==>
      "Karta: " + fmt(report.cardRevenue.value) + " so'm" in ReportHead(report, today, fmt)
    ensures report.totalRevenue.Some? ==>
      "JAMI: " + fmt(report.totalRevenue.value) + " so'm" in ReportHead(report, today, fmt)
  {
    var a := [if report.restaurantName == "" then "RESTORAN" else report.restaurantName,
              Equals, "KUNLIK HISOBOT", Equals,
              "Sana: " + (if Truthy(report.date) then report.date.value else today)];
    var o := Optional(report.totalOrders, n => "Buyurtmalar: " + IntToString(n) + " ta");
    var c := Optional(report.cashRevenue, n => "Naqd: " + fmt(n) + " so'm");
    var k := Optional(report.cardRevenue, n => "Karta: " + fmt(n) + " so'm");
    var t := Optional(report.totalRevenue, n => "JAMI: " + fmt(n) + " so'm");
    var head := ReportHead(report, today, fmt);
    assert head == a + o + [Dashes] + c + k + [Equals] + t;
    assert report.totalOrders.Some? ==> head[5] == o[0];
    assert report.cashRevenue.Some? ==> head[6 + |o|] == c[0];
    assert report.cardRevenue.Some? ==> head[6 + |o| + |c|] == k[0];
    assert report.totalRevenue.Some? ==> head[7 + |o| + |c| + |k|] == t[0];
  }

  /** The report's shape: the restaurant name (or RESTORAN) first, one line
      per defined figure, the waiter section only when there are waiters, and
      the '=' rule last. */
  lemma ReportShape(report: DailyReport, today: string, fmt: int -> string)
    ensures |DailyReportLines(report, today, fmt)| ==
      8 + Count(report.totalOrders) + Count(report.cashRevenue)
        + Count(report.cardRevenue) + Count(report.totalRevenue)
        + (if |Waiters(report)| > 0 then 3 + |Waiters(report)| else 0)
    ensures DailyReportLines(report, today, fmt)[0] ==
      if report.restaurantName == "" then "RESTORAN" else report.restaurantName
    ensures DailyReportLines(report, today, fmt)[|DailyReportLines(report, today, fmt)| - 1] == Equals
    ensures report.totalOrders.Some? ==>
      "Buyurtmalar: " + IntToString(report.totalOrders.value) + " ta" in DailyReportLines(report, today, fmt)
    ensures report.cashRevenue.Some? ==>
      "Naqd: " + fmt(report.cashRevenue.value) + " so'm" in DailyReportLines(report, today, fmt)
    ensures report.cardRevenue.Some? ==>
      "Karta: " + fmt(report.cardRevenue.value) + " so'm" in DailyReportLines(report, today, fmt)
    ensures report.totalRevenue.Some? ==>
      "JAMI: " + fmt(report.totalRevenue.value) + " so'm" in DailyReportLines(report, today, fmt)
  {
    var head := ReportHead(report, today, fmt);
    var lines := DailyReportLines(report, today, fmt);
    ReportHeadShape(report, today, fmt);
    ReportHeadFigures(report, today, fmt);
    assert lines == head + (WaiterSection(report, fmt) + [Equals]);
    forall x | x in head ensures x in lines {
      var j :| 0 <= j < |head| && head[j] == x;
      assert lines[j] == x;
    }
  }

  /** The waiter section lists exactly one line per waiter, in input order,
      right before the closing rule. */
  lemma ReportWaiterLines(report: DailyReport, today: string, fmt: int -> string, i: int)
    requires 0 <= i < |Waiters(report)|
    ensures var lines := DailyReportLines(report, today, fmt);
      lines[|lines| - 1 - |Waiters(report)| + i] == WaiterLine(Waiters(report)[i], fmt)
  {
    var ws := Waiters(report);
    var pre := ReportHead(report, today, fmt) + [Dashes, "OFITSIANTLAR:", Dashes];
    var tail := WaiterLines(ws, fmt) + [Equals];
    assert DailyReportLines(report, today, fmt) == pre + tail;
    TailIndex(pre, tail, |ws|, i);
  }

  /** Counting back from the end of `pre + tail` lands in `tail`. */
  lemma TailIndex(pre: seq<string>, tail: seq<string>, n: nat, i: int)
    requires |tail| == n + 1 && 0 <= i < n
    ensures (pre + tail)[|pre + tail| - 1 - n + i] == tail[i]
  {
  }

  /** The text sent to the agent keeps the lines apart: when no line holds a
      line break, splitting it at '\n' gives the lines back. */
  lemma ReportTextSplits(report: DailyReport, today: string, fmt: int -> string)
    requires forall l :: l in DailyReportLines(report, today, fmt) ==> '\n' !in l
    ensures Split(Join(DailyReportLines(report, today, fmt), '\n'), '\n') == DailyReportLines(report, today, fmt)
  {
    SplitJoin(DailyReportLines(report, today, fmt), '\n');
  }

  datatype RawBody = RawBody(printerName: string, text: string)

  /** The lines of `printDailyReport`: the fixed head, then the waiter
      section built one pushed line per waiter, then the closing rule. */
  method BuildReportLines(report: DailyReport, today: string, fmt: int -> string) returns (lines: seq<string>)
    ensures lines == DailyReportLines(report, today, fmt)
  {
    var ws := Waiters(report);
    var section: seq<string> := [];
    if |ws| > 0 {
      section := [Dashes, "OFITSIANTLAR:", Dashes];
      var i := 0;
      while i < |ws|
        invariant 0 <= i <= |ws|
        invariant section == [Dashes, "OFITSIANTLAR:", Dashes] + WaiterLines(ws[..i], fmt)
      {
        WaiterLinesSnoc(ws, i, fmt);
        section := section + [WaiterLine(ws[i], fmt)];
        i := i + 1;
      }
      assert ws[..i] == ws;
    }
    lines := ReportHead(report, today, fmt) + section + [Equals];
  }

  /** `printDailyReport`: the report's lines joined with line breaks and sent
      as raw text. */
  method PrintDailyReport(report: DailyReport, explicit: Option<string>, stored: Option<string>,
                          today: string, fmt: int -> string, reply: AgentReply)
    returns (a: PrintAttempt<RawBody>)
    ensures a.sent.None? <==> ResolvePrinter(explicit, stored).None?
    ensures a.sent.None? ==> a.result == PrintResult(false, Some(NoPrinter))
    ensures a.sent.Some? ==> a.result == AfterSend(reply)
    ensures a.sent.Some? ==> a.sent.value == RawBody(ResolvePrinter(explicit, stored).value,
                                                     Join(DailyReportLines(report, today, fmt), '\n'))
  {
    var printer := ResolvePrinter(explicit, stored);
    if printer.None? {
      return PrintAttempt(None, PrintResult(false, Some(NoPrinter)));
    }
    var lines := BuildReportLines(report, today, fmt);
    return PrintAttempt(Some(RawBody(printer.value, Join(lines, '\n'))), AfterSend(reply));
  }
}
