# TunisiaShop ERP till and back office, modelled in Dafny

This project models the sale-transaction core of the TunisiaShop ERP web application, a point of sale for a small Tunisian grocery.

- **Till** (`PointOfSale.Terminal`): the open ticket and the quantity keypad. It covers scanning a product or typing its name, setting a line's quantity, and payment in cash or by card.
- **Pricing** (`Pricing`): the ticket's subtotal and the flat tax stamp. It also gives the price frozen into a cart line and the informational 19% tax.
- **Store** (`App.AppState`):
  - finalising a sale: the sync flag, loyalty points, stock decrement, credit book and points;
  - the offline queue and its two-step sync;
  - login, the low-stock badge, and the catalogue, customer, supplier and expense collections.
- **Stock screen** (`Inventory`): the list filters, the product form with its edit merge and generated barcodes, and the manual stock adjustment.
- **Expenses, customers and suppliers screens**: their list filters, the totals of the expenses screen, and how each screen builds a new record.
- **Layout** (`Layout`): the role-filtered menu and the page title.
- **Expiry rules** (`Expiry`): the near-expiry and expired tests.

How values are modelled:

- Money is `real`, so it is exact.
- Dates are milliseconds since the epoch.
- Random ids, the random barcode number and "today" are parameters.
- JavaScript's `parseInt`, `toLowerCase`, `includes`, `find` and `filter` are modelled in `Text` and `Lists`.

Where a component's state changes, the model is a class and each handler is a method. The method's `ensures` relates the new state to pure functions. The lemmas about those functions carry the properties.

Two behaviours of the code are kept as written:

- **Sold stock can go negative.** A sale subtracts the sold quantity without clamping (`App.StockCanGoNegative`). Only the manual adjustment clamps at zero.
- **The informational tax is a flat 19% of the subtotal**, whatever each product's own rate.

Where the code goes further than a plain reading of the design, the model follows the code:

- A completed sync flags every sale in the history, including sales recorded while the sync was pending.
- A sync may be started while another is running.

## Model

| member | source | states |
|---|---|---|
| Pricing.Ticket | components/POS.tsx:116-131 | the ticket keeps the cart's lines, its total is subtotal plus tax stamp, its tax is 19% of the subtotal; it carries no customer, no sync flag and no points |
| Pricing.SubtotalAppend | components/POS.tsx:38 | the subtotal of two line lists put end to end is the sum of their subtotals |
| Pricing.SubtotalReplace | components/POS.tsx:38 | replacing one line swaps that line's total for the new line's in the subtotal |
| Pricing.SubtotalNonNegative | components/POS.tsx:38 | lines with non-negative prices and positive quantities give a non-negative subtotal |
| Pricing.WorkedTicket | components/POS.tsx:38-39 | 2 × 1.000 + 1 × 2.500 with a 0.100 stamp gives subtotal 4.500 and total 4.600 |
| Pricing.FindLine | components/POS.tsx:67 | the line found is the first line about the product, and none is found exactly when no line is |
| Pricing.FindLineUnique | components/POS.tsx:67 | in a cart with one line per product, the line found is that product's line |
| Pricing.ResolvedPrice | components/POS.tsx:68 | without a discount the line keeps the sell price; a discount between 0 and 100 gives a price between 0 and the sell price |
| Pricing.AddLine | components/POS.tsx:66-74 | after a scan the product has a line; the cart grows by one line only when the product had none; one line per product and positive quantities are kept |
| Pricing.AddToExistingLine | components/POS.tsx:70-71 | scanning a product already on the ticket adds the units to its line and changes nothing else |
| Pricing.AddNewLine | components/POS.tsx:73 | scanning a new product puts a line with the discounted price and the units in front of the unchanged cart |
| Pricing.SubtotalAfterAdd | components/POS.tsx:66-74 | a scan raises the subtotal by the units times the line's frozen unit price |
| Pricing.SetLineQuantity | components/POS.tsx:105 | setting a quantity keeps the lines and their order, one line per product and positive quantities |
| Pricing.SetQuantityOfLine | components/POS.tsx:105 | the selected line takes the new quantity and every other line is unchanged |
| Pricing.SubtotalAfterSetQuantity | components/POS.tsx:105 | the subtotal swaps the line's old total for its total at the new quantity |
| Pricing.SetQuantityOfMissingLine | components/POS.tsx:105 | a selection with no line leaves the cart as it is |
| Pricing.KeypadQuantityTruncates | components/POS.tsx:63 | typing "n.f" before a scan applies n units |
| Pricing.EmptyKeypadMeansOne | components/POS.tsx:63 | with nothing typed a scan applies one unit |
| Pricing.LeadingPointIsRefused | components/POS.tsx:63-64 | a keypad entry starting with "." is NaN and the scan is refused |
| Text.ParseInt | components/POS.tsx:102 | `parseInt` reads the leading digits, and gives NaN when there are none |
| Text.ParseIntOfDecimal | components/POS.tsx:63 | a number written in decimal followed by anything not starting with a digit reads back as that number |
| Text.LowerIdempotent | components/POS.tsx:169 | lower-casing twice is lower-casing once |
| Types.EmptySearchMatches | components/POS.tsx:169 | an empty search matches every product |
| Pricing.Subtotal | components/POS.tsx:38 | the sum of price times quantity over the lines; its meaning is carried by SubtotalAppend, SubtotalReplace and SubtotalNonNegative |
| Pricing.TaxStamp | components/POS.tsx:127 | the stamp amount when the stamp is enabled, otherwise 0 |
| Pricing.Total | components/POS.tsx:39 | subtotal plus tax stamp |
| Pricing.RequestedQuantity | components/POS.tsx:63 | an explicit non-zero quantity, else the parsed keypad entry (NaN as none), else 1 |
| Pricing.AddAccepted | components/POS.tsx:60-64 | a scan goes ahead only for a product in stock and a positive quantity |
| Pricing.MatchesScan | components/POS.tsx:90 | exact barcode, or exact name ignoring case |
| Pricing.InCategory | components/POS.tsx:170 | no (or an empty) category tab, or the product's category is the tab |
| PointOfSale.QuantityKeyApplies | components/POS.tsx:101-103 | a non-empty selection and a keypad entry reading as at least 1 |
| Expiry.DaysUntil | utils.ts:14-17 | the whole days until the date, rounded up |
| Expiry.IsNearExpiry | utils.ts:12-19 | a date between 1 and 30 days away, counted in rounded-up days; its meaning is NearExpiryWindow |
| Expiry.IsExpired | utils.ts:21-26 | a date strictly before now |
| Inventory.PassesListFilter | components/Inventory.tsx:33-35 | low stock for the low-stock filter, near expiry or expired for the expiry filter, anything otherwise |
| Expenses.PassesExpenseFilter | components/Expenses.tsx:37 | every expense on the "all" tab, those of the tab's category otherwise |
| Expenses.TotalAmount | components/Expenses.tsx:38 | the sum of the amounts, 0 for none |
| Customers.CustomerMatches | components/Customers.tsx:24-27 | the lower-cased name contains the lower-cased term, or the phone contains the term |
| Suppliers.SupplierMatches | components/Suppliers.tsx:22-24 | the lower-cased name contains the lower-cased term |
| Types.MatchesSearch | components/POS.tsx:169 | the lower-cased name contains the lower-cased term, or the barcode contains the term |
| Types.IsLowStock | App.tsx:145 | stock at or below the reorder threshold |
| App.NamesCustomer | App.tsx:125 | the sale carries a non-empty customer id |
| Text.Lower | components/POS.tsx:169 | same length, each character lower-cased |
| Text.Contains | components/POS.tsx:169 | `includes`: the term occurs at some position; ContainsAt states it by positions |
| Text.ContainsAt | components/POS.tsx:169 | the term is included exactly when it occurs at some position |
| Text.PadStart | components/Inventory.tsx:61 | the padded string has the requested width (or its own), ends with the string, and is filled in front |
| Lists.Filter | App.tsx:92 | `filter` keeps at most the elements it is given; FilterMembers, FilterCounts and FilterIsSubsequence state what it keeps |
| Lists.FilterCounts | App.tsx:92 | each passing element is kept as often as it occurs, the others never |
| Lists.FindFirst | components/POS.tsx:67 | `find`: the first position passing the test, none exactly when no position passes |
| Pricing.FindScanned | components/POS.tsx:90 | the lookup fails exactly when no product has the term as barcode or, ignoring case, as name, and otherwise returns such a product |
| Pricing.CatalogueView | components/POS.tsx:167-173 | the grid holds exactly the products matching the search and the category tab, each as many times as in the catalogue, in catalogue order |
| PointOfSale.Terminal.constructor | components/POS.tsx:24-35 | the till opens with an empty ticket, nothing selected, an empty keypad and search, and the first category |
| PointOfSale.Terminal.TicketSubtotal | components/POS.tsx:38 | the subtotal shown is the ticket's subtotal, non-negative for a valid ticket of non-negative prices |
| PointOfSale.Terminal.VisibleProducts | components/POS.tsx:167-173 | the grid for the till's current search and tab |
| PointOfSale.Terminal.AddToCart | components/POS.tsx:59-85 | a product out of stock, or a NaN or non-positive quantity, changes nothing; otherwise the cart is the scanned cart, the product is selected and the keypad and search clear |
| PointOfSale.Terminal.SubmitSearch | components/POS.tsx:88-98 | Enter scans the first product named by the term (category tab and last sale kept); with none, only the search clears |
| PointOfSale.Terminal.UpdateQuantityFromNumpad | components/POS.tsx:100-108 | with a selected line and a typed whole number of at least 1, that line takes the number and the keypad clears; otherwise nothing changes |
| PointOfSale.QuantityKeyTruncates | components/POS.tsx:102-103 | "2.5" on a selected line sets 2 units |
| PointOfSale.ZeroQuantityIsIgnored | components/POS.tsx:103 | a keypad entry of zeros never sets a quantity |
| PointOfSale.Terminal.PressKey | components/POS.tsx:110-112 | a keypad key appends its character |
| PointOfSale.Terminal.ClearNumpad | components/POS.tsx:114 | the erase key empties the entry |
| PointOfSale.Terminal.SelectLine | components/POS.tsx:206 | clicking a line selects it |
| PointOfSale.Terminal.SetSearchTerm | components/POS.tsx:300 | typing replaces the search term |
| PointOfSale.Terminal.SelectCategory | components/POS.tsx:275 | clicking a tab activates its category |
| PointOfSale.Terminal.CancelSale | components/POS.tsx:248 | the cancel key empties the ticket |
| PointOfSale.Terminal.HandlePayment | components/POS.tsx:116-139 | an empty ticket does nothing; otherwise the priced ticket is recorded by the store (history, stock, unchanged customers), kept as last sale, and the till starts a new ticket |
| App.PointsEarned | App.tsx:115 | loyalty off gives 0 points; loyalty on gives the floor of total × rate |
| App.PointsNonNegative | App.tsx:115 | a non-negative total at a non-negative rate earns non-negative points |
| App.PointsMonotone | App.tsx:115 | a larger total never earns fewer points |
| App.Finalized | App.tsx:116 | the recorded sale is synced exactly when the store is online, carries its points, and is otherwise the ticket |
| App.QuantitySold | App.tsx:120 | the quantity of the product's line on the ticket, or 0 when it has none |
| App.StockAfterSale | App.tsx:119-123 | each product loses exactly the quantity sold and nothing else changes; products not sold are untouched |
| App.UnsoldCatalogueUnchanged | App.tsx:119-123 | a ticket selling nothing from the catalogue leaves it unchanged |
| App.StockCanGoNegative | App.tsx:121 | selling 3 of a product with 1 in stock leaves -2 |
| App.ChargedCustomer | App.tsx:127-133 | a credit sale adds the total to the balance; loyalty on adds the points to the (missing counts as 0) points; nothing else changes |
| App.LedgerAfterSale | App.tsx:125-136 | with no named customer the book is unchanged; otherwise only the customer with the sale's id is charged |
| App.CreditOnlyOnCreditSales | App.tsx:130 | a sale that is not on credit never changes a balance |
| App.LoyaltyAccrues | App.tsx:131 | with loyalty on, the named customer gains exactly the points earned |
| App.OfflineSales | App.tsx:92 | the queue holds exactly the unsynced sales, and is empty exactly when all are synced |
| App.MarkAllSynced | App.tsx:96 | every sale is flagged synced and nothing else changes |
| App.NothingPendingAfterSync | App.tsx:92-96 | after a sync the queue is empty |
| App.SyncIdempotent | App.tsx:96 | syncing twice is syncing once |
| App.SyncOfSyncedIsIdentity | App.tsx:96 | syncing a fully synced history changes nothing |
| App.HistoryOnlyGrows | App.tsx:96-118 | recording and syncing only extend the history, and extension composes |
| App.ReconnectStartsSync | App.tsx:92-93 | a sync goes ahead exactly when the history it is judged on holds an unsynced sale |
| App.StaleListenerMissesOfflineSale | App.tsx:64-93 | a store first rendered offline with no sales that records a sale and then reconnects through the listener as registered holds a pending sale, yet is not syncing and has no sync scheduled |
| App.ReconnectPicksUpOfflineSale | App.tsx:64-98 | the same store reconnecting on its current history is syncing with one sync scheduled for the pending sale |
| App.ReplaceProduct | App.tsx:140 | the edited product replaces every product with its id; the rest stay |
| App.ReplaceOneProduct | App.tsx:140 | in a catalogue of distinct ids the edit replaces exactly one entry and keeps ids distinct |
| App.ReplaceMissingProduct | App.tsx:140 | an edit of an unknown id changes nothing |
| App.AlertsCount | App.tsx:145 | the badge is at most the catalogue size, 0 exactly when nothing is low, the size exactly when everything is |
| App.AlertsCountIsCount | App.tsx:145 | the badge is the number of products at or below their threshold |
| App.AlertsNeverDropAfterSale | App.tsx:119-145 | a sale never lowers the badge |
| App.LandingTab | App.tsx:104 | an administrator lands on the dashboard and a cashier on the till |
| App.AppState.constructor | App.tsx:22-58 | the store starts logged out on the dashboard, not syncing, with the given collections and no expenses |
| App.AppState.Alerts | App.tsx:145 | the badge of the current catalogue |
| App.AppState.CompleteSale | App.tsx:114-137 | the finalised sale is appended, stock is decremented, and the credit book is charged |
| App.AppState.SyncOfflineSales | App.tsx:91-99 | with nothing pending nothing happens; otherwise syncing is shown and one completion is scheduled |
| App.AppState.CompleteSync | App.tsx:95-98 | a completion flags every sale synced, leaves nothing pending and clears the syncing state |
| App.AppState.GoOnlineAsWritten | App.tsx:64-93 | the store goes online and starts a sync judged on the history captured at first render |
| App.AppState.GoOnline | App.tsx:66-69 | the store goes online and starts a sync exactly when the current history holds an unsynced sale |
| App.AppState.GoOffline | App.tsx:70 | the store goes offline |
| App.AppState.Login | App.tsx:101-107 | the session opens on the role's landing tab; a cashier's sidebar collapses |
| App.AppState.Logout | App.tsx:109-112 | the session closes |
| App.AppState.AddProduct | App.tsx:139 | the product goes in front of the catalogue |
| App.AppState.UpdateProduct | App.tsx:140 | the catalogue is the edited catalogue |
| App.AppState.AddCustomer | App.tsx:141 | the customer goes in front of the credit book |
| App.AppState.AddSupplier | App.tsx:142 | the supplier goes in front of the list |
| App.AppState.AddExpense | App.tsx:143 | the expense goes in front of the list |
| Expiry.CeilDiv | utils.ts:17 | `Math.ceil` of a quotient: the least r with a ≤ r × b |
| Expiry.NoDateIsNeither | utils.ts:13-22 | a product without a date is neither near expiry nor expired |
| Expiry.NearExpiryWindow | utils.ts:12-19 | a date is near expiry exactly when it is in the future and at most 30 days away |
| Expiry.NeverNearAndExpired | utils.ts:12-26 | no date is both near expiry and expired |
| Expiry.ExpiringNowIsNeither | utils.ts:18-25 | a date equal to now is neither |
| Expiry.FarFutureIsNeither | utils.ts:18-25 | a date more than 30 days ahead is neither |
| Inventory.InventoryView | components/Inventory.tsx:31-36 | the list holds exactly the products matching the search and the filter, each as many times as in the catalogue, in catalogue order |
| Inventory.FullListWithoutSearch | components/Inventory.tsx:31-36 | no search and the "all" filter list the whole catalogue |
| Inventory.LowStockListMatchesBadge | components/Inventory.tsx:33 | the low-stock list with no search is as long as the menu badge |
| Inventory.AdjustedStock | components/Inventory.tsx:67-71 | a delivery adds and a write-off subtracts, clamped at 0; nothing but stock changes |
| Inventory.OverWriteOffEmpties | components/Inventory.tsx:69-70 | writing off at least the stock leaves 0 |
| Inventory.DeliveryThenWriteOff | components/Inventory.tsx:69-70 | a delivery then a write-off of the same quantity restores a product |
| Inventory.FormOf | components/Inventory.tsx:52 | the edit form carries the product's id, and merging it back gives the product |
| Inventory.MergeEdit | components/Inventory.tsx:59 | the merged product takes every field from the form and keeps its id |
| Inventory.GeneratedBarcode | components/Inventory.tsx:61 | a generated barcode is 13 digits, starts with 619, and its last ten digits read back as the number drawn |
| Inventory.GeneratedBarcodesDiffer | components/Inventory.tsx:61 | different numbers give different barcodes |
| Inventory.NewProduct | components/Inventory.tsx:61-62 | a new product takes the fresh id, the typed barcode or else a generated one, and the form's fields |
| Inventory.InventoryScreen.constructor | components/Inventory.tsx:16-29 | the screen opens unfiltered, with no form open and the blank product form |
| Inventory.InventoryScreen.Rows | components/Inventory.tsx:31-36 | the list for the screen's search and filter |
| Inventory.InventoryScreen.SetSearch | components/Inventory.tsx:101 | typing replaces the search |
| Inventory.InventoryScreen.SetFilter | components/Inventory.tsx:96-97 | a filter button sets the filter |
| Inventory.InventoryScreen.OpenAddModal | components/Inventory.tsx:42-48 | the add form opens blank with no product being edited |
| Inventory.InventoryScreen.OpenEditModal | components/Inventory.tsx:50-54 | the edit form opens filled from the product |
| Inventory.InventoryScreen.EditForm | components/Inventory.tsx:218-255 | typing changes the form's fields, never its id |
| Inventory.InventoryScreen.SubmitProduct | components/Inventory.tsx:56-65 | an edit replaces the product with the merged record under its own id; otherwise the new product goes in front |
| Inventory.InventoryScreen.OpenStockModal | components/Inventory.tsx:156 | the adjustment form opens on the product, reset to a delivery of nothing |
| Inventory.InventoryScreen.SetAdjustment | components/Inventory.tsx:170-174 | typing sets the adjustment |
| Inventory.InventoryScreen.SubmitStock | components/Inventory.tsx:67-74 | with no product nothing changes; otherwise the product is replaced by its adjusted copy and the form resets |
| Expenses.FilterExpenses | components/Expenses.tsx:37 | the list holds exactly the expenses of the selected category (all for "all"), each as many times as recorded, in order |
| Expenses.AllTabListsEverything | components/Expenses.tsx:37 | the "all" tab lists every expense |
| Expenses.FilteredTotal | components/Expenses.tsx:38 | the total is non-negative for non-negative amounts and 0 for an empty list |
| Expenses.TotalNonNegative | components/Expenses.tsx:38 | non-negative amounts add up to a non-negative total |
| Expenses.FilteredTotalStep | components/Expenses.tsx:37-38 | the first expense adds its amount exactly when it passes the filter |
| Expenses.FilteredTotalIsSum | components/Expenses.tsx:37-38 | the total is the sum of the amounts passing the filter |
| Expenses.SumsAddUp | components/Expenses.tsx:37-38 | the four category sums add up to the sum over all |
| Expenses.CategoryTotalsAddUp | components/Expenses.tsx:37-38 | the "all" total is the sum of the four category totals |
| Expenses.NewExpense | components/Expenses.tsx:42-45 | the expense takes the form's fields and an id "exp-" plus the random suffix |
| Expenses.ExpensesScreen.constructor | components/Expenses.tsx:28-35 | the screen opens on "all", closed, with a blank form dated today |
| Expenses.ExpensesScreen.Shown | components/Expenses.tsx:37 | the list for the screen's tab |
| Expenses.ExpensesScreen.SetFilter | components/Expenses.tsx:86-89 | a tab sets the filter |
| Expenses.ExpensesScreen.OpenModal | components/Expenses.tsx:76 | the button opens the form |
| Expenses.ExpensesScreen.EditForm | components/Expenses.tsx:153-174 | typing changes the form |
| Expenses.ExpensesScreen.Submit | components/Expenses.tsx:40-54 | the new expense goes in front of the list; the form closes and resets |
| Customers.FilterCustomers | components/Customers.tsx:24-27 | the list holds exactly the customers whose name contains the term ignoring case or whose phone contains it, each as many times as in the book, in order |
| Customers.EmptySearchListsAllCustomers | components/Customers.tsx:24-27 | an empty search lists every customer |
| Customers.PhoneSearchFindsCustomer | components/Customers.tsx:26 | searching a customer's phone lists that customer |
| Customers.NewCustomer | components/Customers.tsx:31-35 | the customer takes the form's fields, id "c" plus the book size plus one, and 0 points |
| Customers.NewCustomerIdReadsBack | components/Customers.tsx:33 | the number in the id reads back as the book size plus one |
| Customers.NewCustomerIdsDiffer | components/Customers.tsx:33 | customers created at different book sizes get different ids |
| Customers.CustomersScreen.constructor | components/Customers.tsx:15-22 | the screen opens with no search, closed, with a blank form |
| Customers.CustomersScreen.Shown | components/Customers.tsx:24-27 | the list for the screen's search |
| Customers.CustomersScreen.SetSearch | components/Customers.tsx:69 | typing replaces the search |
| Customers.CustomersScreen.OpenModal | components/Customers.tsx:54 | the button opens the form |
| Customers.CustomersScreen.EditForm | components/Customers.tsx:120-128 | typing changes the form |
| Customers.CustomersScreen.Submit | components/Customers.tsx:29-39 | the new customer goes in front of the book; the form closes and resets |
| Suppliers.FilterSuppliers | components/Suppliers.tsx:22-24 | the list holds exactly the suppliers whose name contains the term ignoring case, each as many times as in the list, in order |
| Suppliers.EmptySearchListsAllSuppliers | components/Suppliers.tsx:22-24 | an empty search lists every supplier |
| Suppliers.ContactIsNotSearched | components/Suppliers.tsx:22-24 | whether a supplier is listed does not depend on its contact |
| Suppliers.ContactSearchMissesSupplier | components/Suppliers.tsx:22-24 | searching a contact longer than the name does not find the supplier |
| Suppliers.NewSupplier | components/Suppliers.tsx:28-31 | the supplier takes the form's fields and id "s" plus the list size plus one |
| Suppliers.NewSupplierIdsDiffer | components/Suppliers.tsx:30 | suppliers created at different list sizes get different ids |
| Suppliers.SuppliersScreen.constructor | components/Suppliers.tsx:14-20 | the screen opens with no search, closed, with a blank form |
| Suppliers.SuppliersScreen.Shown | components/Suppliers.tsx:22-24 | the list for the screen's search |
| Suppliers.SuppliersScreen.SetSearch | components/Suppliers.tsx:47 | typing replaces the search |
| Suppliers.SuppliersScreen.OpenModal | components/Suppliers.tsx:51 | the button opens the form |
| Suppliers.SuppliersScreen.EditForm | components/Suppliers.tsx:99-120 | typing changes the form |
| Suppliers.SuppliersScreen.Submit | components/Suppliers.tsx:26-35 | the new supplier goes in front of the list; the form closes and resets |
| Layout.VisibleMenu | components/Layout.tsx:39-50 | a role sees exactly the entries listing it, in menu order |
| Layout.MenuIdsDistinct | components/Layout.tsx:39-48 | no two entries open the same tab |
| Layout.AdminSeesEverything | components/Layout.tsx:39-50 | an administrator sees the whole menu |
| Layout.CashierSelection | components/Layout.tsx:39-50 | the cashier's test keeps the till, the history and the credit book |
| Layout.CashierMenu | components/Layout.tsx:39-50 | a cashier sees the till, the history and the credit book, in that order |
| Layout.CashierTabs | components/Layout.tsx:39-50 | a cashier's tabs are "pos", "history" and "customers" |
| Layout.DashboardHiddenFromCashier | components/Layout.tsx:39-50 | the dashboard is never offered to a cashier |
| Layout.HeaderTitle | components/Layout.tsx:130 | a title is shown exactly when some entry opens the active tab, and it is that entry's caption |
| Layout.EveryTabHasItsTitle | components/Layout.tsx:130 | every menu tab is titled with its own caption |
| Layout.LandingTabIsVisible | components/Layout.tsx:39-50 | the tab a user lands on is in their role's menu |

## Findings

| source | as written | input that shows it | evidently intended | confidence | as-written member | corrected member |
|---|---|---|---|---|---|---|
| App.tsx:64-77 | the `online` listener is registered once, by an effect with no dependencies, so the sync it starts judges the sales of the first render | a store first rendered with no sales records a sale while offline; when the connection returns, no sync starts and the sale stays pending | a reconnect starts a sync whenever the current history holds an unsynced sale | high; not executed | App.AppState.GoOnlineAsWritten, App.StaleListenerMissesOfflineSale | App.AppState.GoOnline, App.ReconnectPicksUpOfflineSale |

## Left out

- Rendering, styling, icons, focus handling, the receipt and scanner dialogs, the camera scanner and the flash feedback are left out. They are presentation.
- Persistence to local storage is left out, as are JSON parsing and the mock data. The store's constructor takes the loaded collections as parameters.
- The sync's two-second timer is modelled as two steps: `SyncOfflineSales` schedules a completion and `CompleteSync` runs one. Real time is not modelled.
- The network's `online` and `offline` events are modelled as the methods `GoOnline` and `GoOffline`. Browser connectivity itself is left out.
- Random ids, the random barcode number, the timestamp and "today" are parameters of the operations that use them.
- Dates are milliseconds since the epoch. Parsing date strings, time zones and `formatDate` are left out.
- `formatCurrency` and rounding to three decimals are left out; money is exact.
- The cash tendered (`cashReceived`, a `parseFloat` of the keypad) is left out. It is only shown on the receipt.
- Printing, CSV export, the dashboard, the sales history screen and the settings screen are not part of this model. The settings are read, never edited.
- Payment by cheque or on credit is not modelled at the till. The till only produces cash and card tickets. `CompleteSale` accepts any payment method and any customer.
- `Text.Lower` folds only the letters A to Z and À to Þ. JavaScript's full Unicode case mapping is left out.
- `Text.ParseInt` reads a leading run of digits. Leading blanks, signs and `0x` are left out; the keypad only produces digits and points.
- `Inventory.ListFilter` keeps the near-expiry case of the screen's filter type. No button of the screen selects it, so the screen itself never shows that list.
- `Expenses.ExpenseFilter` is a datatype rather than the screen's string. Strings other than the five tab values never occur.
- `PointOfSale.Terminal.AddToCart`: the subtotal change of a scan is not stated in the method; the lemma `Pricing.SubtotalAfterAdd` states it about the function the method follows.
- `Pricing.ResolvedPrice`: the discounted price is exact; the code's floating-point rounding is not modelled.
- Aliasing between the till's lines and the catalogue's records is left out. Lines hold copies of products, as JavaScript's object spread makes them.
