# Restaurant cashier: a Dafny model

This project models the client-side logic of a restaurant cashier screen:

- the two cart editors: the takeaway ("saboy") order and adding dishes to an open order;
- the order views: the payment dialog, the details dialog, the order card and the order list with its tabs;
- the dashboard's handling of push events and of a confirmed payment;
- the text of the printed receipts and reports;
- the client of the local print agent;
- the backend client's token cache.

Money is a whole number of so'm (`int`). The replies of the backend and of the print agent are parameters, and so are the current time and the locale's number formatting.

Modules:

- `Seqs`: generic filter and sum over sequences, with their append and partition lemmas.
- `Text`: ASCII case mapping, substring search, blank test, decimal printing and parsing, joining and splitting lines.
- `Types`: the orders, order items, menu items, cart entries, daily summary and print payload, plus the JavaScript "truthy string" test.
- `SaboyModal`, `AddItemsModal`: the carts.
  - The updaters are functions.
  - The dialog state is a class whose methods replace the selection and keep the cart invariant: unique ids and positive quantities.
- `PaymentModal`, `OrderDetailsModal`, `OrderCard`, `OrdersSection`: the views, with their filters and sums.
- `Dashboard`: the order list and the daily summary as a class; one method per event.
- `Printer`: printer choice, the payment and test request bodies, and the daily report's lines. The report lines are built by a loop and proved equal to a specification function.
- `ReceiptGenerator`: the four HTML receipts, each modelled as a sequence of logical rows rather than markup. Where the source builds a receipt with loops, a method does too; it is proved equal to a specification function about which the totals and the optional-row rules are proved. Also `formatDateTime`'s padding and layout.
- `Api`: the token cache and its key/value storage as a class; request headers, error messages and login.

## Model

| member | source | states |
|---|---|---|
| SaboyModal.NewEntry | src/components/cashier/SaboyModal.tsx:81 | a menu dish enters the cart at quantity 1 with its id, name and price; a cart entry keeps its own quantity |
| SaboyModal.Find | src/components/cashier/SaboyModal.tsx:75 | `find` fails iff no entry has the id; otherwise it returns the first entry with that id |
| SaboyModal.FindValid | src/components/cashier/SaboyModal.tsx:87 | in a cart with unique ids, `find` returns the one entry with that id |
| SaboyModal.Bump | src/components/cashier/SaboyModal.tsx:77-79 | the `map` changes the quantity of the entries with the id by delta and leaves the others and the length alone |
| SaboyModal.Drop | src/components/cashier/SaboyModal.tsx:93 | the `filter` keeps exactly the entries with another id |
| SaboyModal.AddExisting | src/components/cashier/SaboyModal.tsx:75-79 | adding an item already in the cart raises only that entry by 1; the other entries and the order are unchanged |
| SaboyModal.AddNew | src/components/cashier/SaboyModal.tsx:81 | adding an item not in the cart appends exactly one entry at the end, at quantity 1 for a menu dish |
| SaboyModal.RemoveDecrements | src/components/cashier/SaboyModal.tsx:86-92 | removing from an entry above 1 lowers only that entry by 1 |
| SaboyModal.DropUnique | src/components/cashier/SaboyModal.tsx:93 | in a valid cart, the `filter` takes out exactly the entry at that position |
| SaboyModal.RemoveDeletes | src/components/cashier/SaboyModal.tsx:93 | removing from an entry at quantity 1 deletes exactly that entry |
| SaboyModal.RemoveAbsent | src/components/cashier/SaboyModal.tsx:93 | removing an id not in the cart leaves the cart unchanged |
| SaboyModal.AddRemoveRoundTrip | src/components/cashier/SaboyModal.tsx:73-94 | adding a menu dish and removing it again gives back the cart |
| SaboyModal.RoundTripExisting | src/components/cashier/SaboyModal.tsx:75-92 | the round trip for a dish already in the cart |
| SaboyModal.RoundTripNew | src/components/cashier/SaboyModal.tsx:81-93 | the round trip for a dish not yet in the cart |
| SaboyModal.FindBumped | src/components/cashier/SaboyModal.tsx:87-90 | after a raise, `find` still returns the raised entry, with the new quantity |
| SaboyModal.BumpBack | src/components/cashier/SaboyModal.tsx:77-90 | a raise by 1 followed by a lowering by 1 restores the cart |
| SaboyModal.AddPreservesValid | src/components/cashier/SaboyModal.tsx:73-83 | adding keeps ids unique and quantities at least 1 |
| SaboyModal.ValidWithout | src/components/cashier/SaboyModal.tsx:93 | taking one entry out of a valid cart leaves a valid cart |
| SaboyModal.RemovePreservesValid | src/components/cashier/SaboyModal.tsx:85-95 | removing keeps ids unique and quantities at least 1 |
| SaboyModal.ItemQuantity | src/components/cashier/SaboyModal.tsx:97-99 | 0 for an id not in the cart, otherwise the entry's quantity |
| SaboyModal.BumpTotal | src/components/cashier/SaboyModal.tsx:102 | changing one entry's quantity by delta moves the total by delta times its price |
| SaboyModal.NoBump | src/components/cashier/SaboyModal.tsx:77-79 | the `map` over an id that is absent changes nothing |
| SaboyModal.AddRaisesTotal | src/components/cashier/SaboyModal.tsx:102 | adding a dish raises the total by exactly one unit price |
| SaboyModal.RemoveLowersTotal | src/components/cashier/SaboyModal.tsx:102 | removing from an entry lowers the total by exactly one unit price |
| SaboyModal.FilteredItems | src/components/cashier/SaboyModal.tsx:105-109 | keeps exactly the dishes whose category matches (or is 'all') and whose lower-cased name contains the lower-cased query, never more than the menu |
| SaboyModal.FilteredItemsOrder | src/components/cashier/SaboyModal.tsx:105-109 | the matching dishes appear in menu order: the filter distributes over concatenation and keeps one dish iff it matches |
| SaboyModal.FilteredItemsUnfiltered | src/components/cashier/SaboyModal.tsx:105-109 | category 'all' with an empty query shows the whole menu in order |
| SaboyModal.SubmitRequest | src/components/cashier/SaboyModal.tsx:112-120 | an empty cart is refused with "Mahsulot tanlanmagan"; otherwise the cart and payment type are sent as they are |
| SaboyModal.SaboyCart.constructor | src/components/cashier/SaboyModal.tsx:44-53 | opening resets the cart, the category, the query and the payment type |
| SaboyModal.SaboyCart.Add | src/components/cashier/SaboyModal.tsx:73-83 | replaces the cart by the `addItem` update and keeps the cart invariant |
| SaboyModal.SaboyCart.Remove | src/components/cashier/SaboyModal.tsx:85-95 | replaces the cart by the `removeItem` update and keeps the cart invariant |
| SaboyModal.SaboyCart.Submit | src/components/cashier/SaboyModal.tsx:112-130 | sends iff the cart is not empty; the dialog closes only when the backend accepts |
| AddItemsModal.Find | src/components/cashier/AddItemsModal.tsx:105 | `find` fails iff no entry has the food id; otherwise it returns the first such entry |
| AddItemsModal.FindUnique | src/components/cashier/AddItemsModal.tsx:105 | with unique food ids, `find` returns the one entry with that id |
| AddItemsModal.SetQuantity | src/components/cashier/AddItemsModal.tsx:112-114 | the `map` sets the quantity of the entries with the id and leaves the others and the length alone |
| AddItemsModal.RemoveFood | src/components/cashier/AddItemsModal.tsx:110 | the `filter` keeps exactly the entries with another food id |
| AddItemsModal.SelectedQuantity | src/components/cashier/AddItemsModal.tsx:128-130 | 0 for a dish not picked, otherwise the entry's quantity |
| AddItemsModal.FilteredItems | src/components/cashier/AddItemsModal.tsx:83-100 | keeps exactly the dishes of the chosen category (any when 'all') whose lower-cased name contains the lower-cased query, unless the query is blank |
| AddItemsModal.FilteredItemsOrder | src/components/cashier/AddItemsModal.tsx:83-100 | the two filters together keep the matching dishes in menu order: the result distributes over concatenation and keeps one dish iff it matches |
| AddItemsModal.FilteredItemsUnfiltered | src/components/cashier/AddItemsModal.tsx:87-99 | a blank query with category 'all' shows the whole menu in order |
| AddItemsModal.SubmitRequest | src/components/cashier/AddItemsModal.tsx:139-143 | nothing is sent without an order or with an empty selection; otherwise the order id and the selection |
| AddItemsModal.RemoveFoodUnique | src/components/cashier/AddItemsModal.tsx:110 | in a valid selection the `filter` takes out exactly the entry at that position |
| AddItemsModal.RemoveChipExact | src/components/cashier/AddItemsModal.tsx:307 | a chip's remove button deletes exactly the entry with that food id, and nothing when it is absent |
| AddItemsModal.UpdateRemoves | src/components/cashier/AddItemsModal.tsx:107-111 | a step that takes an entry to 0 or below removes exactly that entry |
| AddItemsModal.UpdateSets | src/components/cashier/AddItemsModal.tsx:112-114 | a step that leaves an entry positive sets only that entry's quantity to quantity + delta |
| AddItemsModal.UpdateAppends | src/components/cashier/AddItemsModal.tsx:115-121 | a positive step on a dish not picked appends one entry with quantity delta |
| AddItemsModal.UpdateIgnores | src/components/cashier/AddItemsModal.tsx:123 | any other step on a dish not picked changes nothing |
| AddItemsModal.ValidWithout | src/components/cashier/AddItemsModal.tsx:110 | taking one entry out keeps the selection valid |
| AddItemsModal.UpdatePreservesValid | src/components/cashier/AddItemsModal.tsx:103-125 | `updateItemQuantity` keeps food ids unique and quantities positive |
| AddItemsModal.RemovePreservesValid | src/components/cashier/AddItemsModal.tsx:307 | chip removal keeps food ids unique and quantities positive |
| AddItemsModal.SetQuantityTotal | src/components/cashier/AddItemsModal.tsx:133-135 | setting one entry's quantity moves the total by the change times its price |
| AddItemsModal.RemoveTotal | src/components/cashier/AddItemsModal.tsx:133-135 | taking an entry out lowers the total by that entry's amount |
| AddItemsModal.UpdateTotalPicked | src/components/cashier/AddItemsModal.tsx:103-135 | for a dish already selected, a step changes the total by delta·price, or by minus the whole entry when its quantity drops to zero |
| AddItemsModal.UpdateTotal | src/components/cashier/AddItemsModal.tsx:103-135 | the total after each kind of step: +delta·price, minus the whole entry, +delta·price of a new dish, or unchanged |
| AddItemsModal.AddItemsCart.constructor | src/components/cashier/AddItemsModal.tsx:44-46 | empty selection, category 'all', empty query |
| AddItemsModal.AddItemsCart.Reset | src/components/cashier/AddItemsModal.tsx:58-64 | closing clears the selection and both filters |
| AddItemsModal.AddItemsCart.UpdateQuantity | src/components/cashier/AddItemsModal.tsx:103-125 | replaces the selection by the `updateItemQuantity` update and keeps the invariant |
| AddItemsModal.AddItemsCart.RemoveChip | src/components/cashier/AddItemsModal.tsx:307 | replaces the selection by the chip removal and keeps the invariant |
| PaymentModal.ActiveItemsSpec | src/components/cashier/PaymentModal.tsx:26 | `activeItems` holds exactly the lines that are not cancelled, in order |
| PaymentModal.SubtotalSnoc | src/components/cashier/PaymentModal.tsx:27 | each line adds price·quantity to `subtotal`, a cancelled line adds nothing |
| PaymentModal.SubtotalIgnoresCancelled | src/components/cashier/PaymentModal.tsx:27 | changing cancelled lines leaves `subtotal` unchanged |
| PaymentModal.View | src/components/cashier/PaymentModal.tsx:26-91 | the dialog lists the active lines and their sum; the service fee and grand total are the order's stored figures |
| PaymentModal.ChosenType | src/components/cashier/PaymentModal.tsx:13 | the dialog's choice reaches the dashboard's `handlePayment` as cash or card, never click |
| PaymentModal.PaymentDialog.constructor | src/components/cashier/PaymentModal.tsx:21-22 | the dialog starts on cash and not loading |
| PaymentModal.PaymentDialog.Confirm | src/components/cashier/PaymentModal.tsx:29-39 | hands over the order id and the chosen type; closes only if the confirmation resolves; loading ends false |
| OrderDetailsModal.ItemPartition | src/components/cashier/OrderDetailsModal.tsx:29-30 | the active and cancelled lists are disjoint, cover every line as a multiset, add up in length and keep the order |
| OrderDetailsModal.View | src/components/cashier/OrderDetailsModal.tsx:29-114 | the title is 'Soboy' for a saboy order and the table name otherwise; the active and cancelled lists are exactly `activeItems` and the cancelled lines, in order; the total is the grand total; the pay action iff unpaid |
| OrderCard.AllReady | src/components/cashier/OrderCard.tsx:20 | `every` item (cancelled ones included) is ready or served |
| OrderCard.StatusBadge | src/components/cashier/OrderCard.tsx:16-25 | paid gives TO'LANGAN; an unpaid order is TAYYOR iff every line is ready or served (so an empty one is); otherwise TAYYORLANMOQDA |
| OrderCard.DisplayItems | src/components/cashier/OrderCard.tsx:29-30 | the first min(3, number of active lines) active lines |
| OrderCard.OverflowButton | src/components/cashier/OrderCard.tsx:31-81 | the "+N" button shows iff some active line is hidden, and N is the number hidden |
| OrderCard.View | src/components/cashier/OrderCard.tsx:28-104 | the badge, the displayed lines, "+N" iff more than 3 active lines, the active subtotal, the order's stored service fee and grand total, the pay button iff unpaid |
| OrdersSection.OrderPartition | src/components/cashier/OrdersSection.tsx:17-18 | the unpaid and paid lists partition the orders by status, keep the order and add up to all orders |
| OrdersSection.Selected | src/components/cashier/OrdersSection.tsx:20-24 | 'active' shows exactly the unpaid orders and 'paid' exactly the paid ones, each in list order; 'all' the input unchanged |
| OrdersSection.Counts | src/components/cashier/OrdersSection.tsx:26-30 | the tab counters are the lengths of the selections and the first two add up to the third |
| OrdersSection.EmptyMessage | src/components/cashier/OrdersSection.tsx:65-75 | the tab's own message shows iff the selected list is empty |
| Dashboard.CountNewOrder | src/components/cashier/Dashboard.tsx:85-89 | totalOrders and activeOrders go up by 1; every other field is unchanged |
| Dashboard.ReplaceById | src/components/cashier/Dashboard.tsx:95 | same length; orders with the id become the new order, the others are untouched |
| Dashboard.ReplaceUnknown | src/components/cashier/Dashboard.tsx:93-97 | an unknown id changes nothing |
| Dashboard.ReplaceListed | src/components/cashier/Dashboard.tsx:93-97 | a listed id puts the new order in the list, and replacing again with the same order changes nothing |
| Dashboard.PrintItems | src/components/cashier/Dashboard.tsx:136-142 | the printed items are the paid order's lines that are not cancelled, in order, as name, quantity and price |
| Dashboard.PrintItemsSum | src/components/cashier/Dashboard.tsx:136-142 | mapping the lines to printed items keeps the sum of price·quantity |
| Dashboard.PrintItemsTotal | src/components/cashier/Dashboard.tsx:136-142 | the printed items add up to the subtotal the dialogs show |
| Dashboard.PaymentPayload | src/components/cashier/Dashboard.tsx:130-149 | subtotal is the order's total, total its grand total, the items are the printed items, and the restaurant name defaults to "Restoran" |
| Dashboard.SelectedPrinter | src/components/cashier/Dashboard.tsx:128-129 | the payment is printed on the stored printer exactly when one is stored |
| Dashboard.DashboardState.constructor | src/components/cashier/Dashboard.tsx:21-29 | empty list, all-zero summary, and the first refresh requested |
| Dashboard.DashboardState.Reloaded | src/components/cashier/Dashboard.tsx:51-62 | a successful refresh replaces both list and summary; a failed one changes nothing |
| Dashboard.DashboardState.OnNewOrder | src/components/cashier/Dashboard.tsx:83-91 | the order goes first, the old list becomes the tail, and the two counters go up |
| Dashboard.DashboardState.OnOrderUpdated | src/components/cashier/Dashboard.tsx:93-97 | replace-by-id with the pushed order |
| Dashboard.DashboardState.OnOrderPaid | src/components/cashier/Dashboard.tsx:99-104 | replace-by-id with the pushed order, then a refresh |
| Dashboard.DashboardState.HandlePayment | src/components/cashier/Dashboard.tsx:118-156 | no backend call for an unlisted id; a refused payment changes nothing; otherwise the receipt goes to the printer and only the order with that id is replaced by the backend's order |
| Printer.ResolvePrinter | src/services/printer.ts:23-27 | a non-empty explicit printer wins; then the stored one; otherwise none, and never an empty name |
| Printer.AfterSend | src/services/printer.ts:47-51 | the agent's answer, or failure with the connection-error message when the call threw |
| Printer.PaymentBodyOf | src/services/printer.ts:32-45 | the items keep count and order with name renamed to foodName; totalPrice is the total and discount is 0 |
| Printer.PrintPayment | src/services/printer.ts:20-52 | without a printer nothing is sent and the "choose a printer" error is returned; otherwise the body above is sent |
| Printer.PrintTest | src/services/printer.ts:55-76 | the same printer rule, with the restaurant name defaulting to KEPKET |
| Printer.Optional | src/services/printer.ts:102-115 | a figure line appears iff its figure is defined |
| Printer.WaiterLines | src/services/printer.ts:122-124 | one line per waiter |
| Printer.ReportHeadShape | src/services/printer.ts:96-115 | the head has 7 fixed lines plus one per defined figure and starts with the restaurant name (or RESTORAN) |
| Printer.ReportHeadFigures | src/services/printer.ts:102-115 | each figure the report defines (orders, cash, card, total revenue) has its own line in the head |
| Printer.ReportShape | src/services/printer.ts:96-127 | the length counts the defined figures and a waiter section only when there are waiters; the first line is the name and the last the '=' rule |
| Printer.ReportWaiterLines | src/services/printer.ts:118-125 | the i-th waiter's line sits at its place, in input order, right before the closing rule |
| Printer.ReportTextSplits | src/services/printer.ts:134 | splitting the joined text at line breaks gives back the lines |
| Printer.BuildReportLines | src/services/printer.ts:96-127 | the pushed lines equal the report's specification |
| Printer.PrintDailyReport | src/services/printer.ts:79-142 | without a printer nothing is sent; otherwise the lines joined with '\n' go to the chosen printer |
| ReceiptGenerator.Pad2 | src/utils/receipt-generator.ts:64 | the padded text is all digits, reads back as the number and has two characters below 100 |
| ReceiptGenerator.DecimalWidth | src/utils/receipt-generator.ts:66 | the number of digits of a year |
| ReceiptGenerator.Pieces | src/utils/receipt-generator.ts:69 | a text with one separator reads back piece by piece |
| ReceiptGenerator.TwoFields | src/utils/receipt-generator.ts:69 | two padded fields around a separator read back as their values |
| ReceiptGenerator.MonthYearLayout | src/utils/receipt-generator.ts:65-69 | MM.YYYY has its separator at place 2, and both fields read back (the month one-based) |
| ReceiptGenerator.DatePartLayout | src/utils/receipt-generator.ts:64-69 | DD.MM.YYYY is 10 characters with separators at 2 and 5, and each field reads back |
| ReceiptGenerator.TimePartLayout | src/utils/receipt-generator.ts:67-69 | HH:MM is 5 characters with ':' at 2, and both fields read back |
| ReceiptGenerator.FormatDateTimeLayout | src/utils/receipt-generator.ts:62-70 | the text is 16 characters: the date, a space, the time |
| ReceiptGenerator.OrOne | src/utils/receipt-generator.ts:173 | a missing or zero quantity counts as 1, any other as itself |
| ReceiptGenerator.OrText | src/utils/receipt-generator.ts:250 | a missing or empty text falls back |
| ReceiptGenerator.LineAmount | src/utils/receipt-generator.ts:173 | (price or 0) × (quantity or 1 when missing or 0) |
| ReceiptGenerator.PaymentTypeText | src/utils/receipt-generator.ts:177 | cash→NAQD, card→KARTA, any other type upper-cased character by character |
| ReceiptGenerator.PaymentItemRows | src/utils/receipt-generator.ts:171-175 | one item line per item, in order: the dish's name, its quantity as given, and the line amount (price or 0) × (quantity or 1) |
| ReceiptGenerator.Brand | src/utils/receipt-generator.ts:180-181 | the name (or RESTORAN) and the address when given |
| ReceiptGenerator.Heading | src/utils/receipt-generator.ts:182-186 | the title is TO'LOV CHEKI when paid and HISOB otherwise; then the time and the table |
| ReceiptGenerator.Parties | src/utils/receipt-generator.ts:187-191 | the waiter and cashier rows only when given |
| ReceiptGenerator.Totals | src/utils/receipt-generator.ts:193-199 | the count row shows the number of items; the fee and discount rows appear iff positive |
| ReceiptGenerator.Closing | src/utils/receipt-generator.ts:200-204 | the payment-type row iff paid; the pending banner iff unpaid |
| ReceiptGenerator.PaymentReceipt | src/utils/receipt-generator.ts:167-207 | the rows built with the item loop equal the receipt's specification |
| ReceiptGenerator.SectionOf | src/utils/receipt-generator.ts:179-205 | which section each kind of row can come from |
| ReceiptGenerator.ReceiptSections | src/utils/receipt-generator.ts:179-205 | titles come from the heading, banners and payment-type rows from the closing, amounts from the totals |
| ReceiptGenerator.ReceiptTitle | src/utils/receipt-generator.ts:169-183 | paid unless `isPaid` is false; the receipt's only title is TO'LOV CHEKI or HISOB accordingly |
| ReceiptGenerator.ReceiptClosing | src/utils/receipt-generator.ts:200-202 | the banner iff unpaid; the payment-type row when paid and never when unpaid |
| ReceiptGenerator.OptionalRows | src/utils/receipt-generator.ts:194-197 | the count row shows the number of items; the fee and discount rows appear iff their value is positive |
| ReceiptGenerator.ReportReceiptRows | src/utils/receipt-generator.ts:212-233 | JAMI TUSHUM is cash + card and is the only revenue row; the unpaid row appears iff defined and is not added |
| ReceiptGenerator.WaiterRow | src/utils/receipt-generator.ts:247-254 | the waiter's name (or nothing), cash, card and unpaid figures (0 when missing), and a JAMI of cash plus card |
| ReceiptGenerator.WaiterRows | src/utils/receipt-generator.ts:246-258 | one block per waiter, in order |
| ReceiptGenerator.GrandTotalOfBlocks | src/utils/receipt-generator.ts:240-254 | UMUMIY JAMI is the sum of the printed JAMI figures |
| ReceiptGenerator.GrandTotalIgnoresUnpaid | src/utils/receipt-generator.ts:240-243 | unpaid amounts never change the grand total |
| ReceiptGenerator.SumSnoc | src/utils/receipt-generator.ts:241-243 | one more waiter or item adds its amount to the running total |
| ReceiptGenerator.WaiterReport | src/utils/receipt-generator.ts:238-274 | the two loops produce the report's specified rows |
| ReceiptGenerator.CancelledRow | src/utils/receipt-generator.ts:287-289 | a cancelled line shows quantity-or-1, the quantity its amount is computed with |
| ReceiptGenerator.CancelledRows | src/utils/receipt-generator.ts:286-290 | one line per cancelled item, in order |
| ReceiptGenerator.CancelledTotalOfLines | src/utils/receipt-generator.ts:281-289 | the report's JAMI is the sum of the printed line amounts |
| ReceiptGenerator.CancelledReport | src/utils/receipt-generator.ts:279-308 | the two loops produce the report's specified rows |
| Api.StoredToken | src/services/api.ts:19 | the stored token, when a text is stored under 'token' |
| Api.CachedToken | src/services/api.ts:16-22 | a non-empty cached token as it is, otherwise the stored one |
| Api.SetThenGet | src/services/api.ts:9-22 | after `setToken(t)`, `getToken()` returns t, even an empty t |
| Api.ClearThenGet | src/services/api.ts:24-31 | after `clearToken()`, `getToken()` finds nothing |
| Api.StoredUser | src/services/api.ts:114-118 | the staff record stored under 'user', present iff there is one |
| Api.StoredRestaurant | src/services/api.ts:120-124 | the restaurant record stored under 'restaurant', present iff there is one |
| Api.Headers | src/services/api.ts:37-42 | Content-Type defaults to JSON; Authorization is "Bearer " + token iff there is a token; the caller's headers override both; no other keys |
| Api.ErrorMessage | src/services/api.ts:49-54 | the server's non-empty message, else "Xatolik yuz berdi"; never empty |
| Api.ApiService.constructor | src/services/api.ts:7 | no cached token at start |
| Api.ApiService.SetToken | src/services/api.ts:9-14 | both the cache and the stored 'token' become t |
| Api.ApiService.GetToken | src/services/api.ts:16-22 | returns the non-empty cache without reading storage; otherwise caches and returns the stored token |
| Api.ApiService.ClearToken | src/services/api.ts:24-31 | the cache is emptied and exactly 'token', 'user' and 'restaurant' are removed |
| Api.ApiService.Request | src/services/api.ts:33-57 | the headers are composed from the current token; a refused request fails with the error message |
| Api.ApiService.Login | src/services/api.ts:59-80 | on success the token is set and the user and restaurant are stored; on failure storage is untouched |
| Api.LoginStored | src/services/api.ts:72-77 | what login stores reads back as the token, the user and the restaurant |

## Left out

- Network, sockets and audio: the `fetch` calls, the socket connection and its lifecycle, and the notification sound. The replies are parameters (`Result`, `Reply`, `AgentReply`) and refreshes are counted.
- Locale formatting. Amounts in receipt rows stay integers. The daily report takes the number formatting as a function parameter and the locale date as a text parameter.
- The current time: receipts take the formatted stamp or a `Moment` (the calendar fields a `Date` reports).
- HTML, CSS and JSX markup, dialogs and icons. `generateHTML` and `generateTestReceiptHTML` are page templates without logic.
- The printer listing and the health check in `src/services/printer.ts` (`getPrinters`, `checkConnection`): transport only.
- The data-fetching endpoints of `src/services/api.ts` other than login (`getOrders`, `getDailySummary`, `processPayment`, `getWaiterStats`). They are `request` calls whose answers are parameters here.
- The `isLoading` flags of the cart dialogs and the menu loading: they only disable buttons.
- Server-side rendering (the `typeof window` checks): the model is always in the browser.
- Case mapping covers ASCII letters only; other characters are left unchanged.
- Prices and quantities are integers; JavaScript's floating point and NaN are not modelled.
- Stored user and restaurant records are typed entries rather than JSON text; storage holding text that is not their JSON is not modelled.
- Api.ErrorMessage: an error body that is JSON but not an object (for example `null`) makes the source throw a different error; the model covers only an object body with or without a message, and a body that is not JSON.
- Dashboard.InitialSummary: the source's initial summary has no `clickRevenue` field; the model takes it as 0.
- ReceiptGenerator.WaiterRow: a waiter block stands for the block and the '-' rule printed after it.
- ReceiptGenerator.PaymentItemRows: the quantity column shows the item's quantity as given, even when it is missing; the model keeps it as an `Option`.
- Header, summary cards, settings and reports dialogs: display and I/O only.
