/**
 * The back office behind every screen: the collections the store keeps, the
 * finalisation of a sale (history, stock, credit book, loyalty), the offline
 * sync queue, catalogue additions and edits, the low-stock alert count and
 * the session.
 */
module App {
  import opened Wrappers
  import opened Types
  import opened Lists
  import opened Pricing

  // ---------------------------------------------------------------------------
  // Finalising a sale
  // ---------------------------------------------------------------------------

  /** Loyalty points a ticket earns: the total times the rate, rounded down, or none when the programme is off. */
  function PointsEarned(settings: StoreSettings, total: real): (r: int)
    ensures !settings.loyaltyEnabled ==> r == 0
    ensures settings.loyaltyEnabled ==> r as real <= total * settings.loyaltyRate < r as real + 1.0
  {
    if settings.loyaltyEnabled then (total * settings.loyaltyRate).Floor else 0
  }

  /** Non-negative totals at a non-negative rate never earn negative points. */
  lemma PointsNonNegative(settings: StoreSettings, total: real)
    requires total >= 0.0 && settings.loyaltyRate >= 0.0
    ensures PointsEarned(settings, total) >= 0
  {
    if settings.loyaltyEnabled {
      assert total * settings.loyaltyRate >= 0.0;
    }
  }

  /** A larger total never earns fewer points. */
  lemma PointsMonotone(settings: StoreSettings, t1: real, t2: real)
    requires t1 <= t2 && settings.loyaltyRate >= 0.0
    ensures PointsEarned(settings, t1) <= PointsEarned(settings, t2)
  {
    if settings.loyaltyEnabled {
      assert t1 * settings.loyaltyRate <= t2 * settings.loyaltyRate;
    }
  }

  /**
   * The record stored in the history: the ticket as the till built it, synced
   * exactly when the store is online and carrying the points it earned.
   */
  function Finalized(sale: Sale, settings: StoreSettings, isOnline: bool): (r: Sale)
    ensures r.isSynced == isOnline
    ensures r.pointsEarned == Some(PointsEarned(settings, sale.total))
    ensures r.(isSynced := sale.isSynced, pointsEarned := sale.pointsEarned) == sale
  {
    sale.(isSynced := isOnline, pointsEarned := Some(PointsEarned(settings, sale.total)))
  }

  /** The quantity of product `id` a list of ticket lines takes out of stock: that of its first line, or none. */
  function QuantitySold(items: seq<CartItem>, id: string): (r: int)
    ensures FindLine(items, id).None? ==> r == 0
    ensures FindLine(items, id).Some? ==> r == items[FindLine(items, id).value].quantity
  {
    match FindLine(items, id)
    case None => 0
    case Some(k) => items[k].quantity
  }

  /**
   * The catalogue after a sale: each sold product's stock drops by the sold
   * quantity, without any floor, and everything else is kept.
   */
  function StockAfterSale(products: seq<Product>, items: seq<CartItem>): (r: seq<Product>)
    ensures |r| == |products|
    ensures forall i :: 0 <= i < |r| ==> r[i].(stockQuantity := products[i].stockQuantity) == products[i]
    ensures forall i :: 0 <= i < |r| ==> r[i].stockQuantity == products[i].stockQuantity - QuantitySold(items, products[i].id)
    ensures forall i :: 0 <= i < |r| && FindLine(items, products[i].id).None? ==> r[i] == products[i]
  {
    seq(|products|, i requires 0 <= i < |products| =>
      products[i].(stockQuantity := products[i].stockQuantity - QuantitySold(items, products[i].id)))
  }

  /** A sale that touches no product of the catalogue leaves the catalogue as it is. */
  lemma UnsoldCatalogueUnchanged(products: seq<Product>, items: seq<CartItem>)
    requires forall i :: 0 <= i < |products| ==> FindLine(items, products[i].id).None?
    ensures StockAfterSale(products, items) == products
  {
  }

  /** Stock is not floored at zero: selling three units of a product with one in stock leaves minus two. */
  lemma StockCanGoNegative(p: Product)
    requires p.stockQuantity == 1
    ensures StockAfterSale([p], [CartItem(p, 3)])[0].stockQuantity == -2
  {
    assert FindLine([CartItem(p, 3)], p.id) == Some(0);
  }

  /** The ticket names a customer: `sale.customerId` is present and not the empty string. */
  predicate NamesCustomer(sale: Sale) {
    sale.customerId.Some? && sale.customerId.value != ""
  }

  /** A credit-book entry after a sale to that customer: credit grows on CREDIT sales, points when loyalty is on. */
  function ChargedCustomer(c: Customer, sale: Sale, settings: StoreSettings, points: int): (r: Customer)
    ensures r.creditBalance == if sale.paymentMethod == CREDIT then c.creditBalance + sale.total else c.creditBalance
    ensures r.loyaltyPoints == if settings.loyaltyEnabled then Some(c.loyaltyPoints.GetOr(0) + points) else c.loyaltyPoints
    ensures r.(creditBalance := c.creditBalance, loyaltyPoints := c.loyaltyPoints) == c
  {
    c.(creditBalance := if sale.paymentMethod == CREDIT then c.creditBalance + sale.total else c.creditBalance,
       loyaltyPoints := if settings.loyaltyEnabled then Some(c.loyaltyPoints.GetOr(0) + points) else c.loyaltyPoints)
  }

  /** The credit book after a sale: only the entries whose id is the ticket's customer change. */
  function LedgerAfterSale(customers: seq<Customer>, sale: Sale, settings: StoreSettings, points: int): (r: seq<Customer>)
    ensures |r| == |customers|
    ensures !NamesCustomer(sale) ==> r == customers
    ensures forall i :: 0 <= i < |r| && NamesCustomer(sale) && customers[i].id == sale.customerId.value
                        ==> r[i] == ChargedCustomer(customers[i], sale, settings, points)
    ensures forall i :: 0 <= i < |r| && (!NamesCustomer(sale) || customers[i].id != sale.customerId.value)
                        ==> r[i] == customers[i]
  {
    if !NamesCustomer(sale) then customers
    else
      seq(|customers|, i requires 0 <= i < |customers| =>
        if customers[i].id == sale.customerId.value then ChargedCustomer(customers[i], sale, settings, points)
        else customers[i])
  }

  /** Only a CREDIT sale raises what a customer owes, and then by exactly the ticket total. */
  lemma CreditOnlyOnCreditSales(customers: seq<Customer>, sale: Sale, settings: StoreSettings, points: int, i: nat)
    requires i < |customers|
    ensures var r := LedgerAfterSale(customers, sale, settings, points);
      r[i].creditBalance == if NamesCustomer(sale) && customers[i].id == sale.customerId.value && sale.paymentMethod == CREDIT
                            then customers[i].creditBalance + sale.total
                            else customers[i].creditBalance
  {
  }

  /** With loyalty on, the named customer's points grow by exactly the points earned (a missing balance counts as 0). */
  lemma LoyaltyAccrues(customers: seq<Customer>, sale: Sale, settings: StoreSettings, points: int, i: nat)
    requires i < |customers| && NamesCustomer(sale) && customers[i].id == sale.customerId.value
    requires settings.loyaltyEnabled
    ensures LedgerAfterSale(customers, sale, settings, points)[i].loyaltyPoints.GetOr(0)
         == customers[i].loyaltyPoints.GetOr(0) + points
  {
  }

  // ---------------------------------------------------------------------------
  // The offline sync queue
  // ---------------------------------------------------------------------------

  predicate Pending(s: Sale) {
    !s.isSynced
  }

  /** The sales still waiting to be sent, in history order. */
  function OfflineSales(sales: seq<Sale>): (r: seq<Sale>)
    ensures forall s :: s in r <==> s in sales && !s.isSynced
    ensures |r| == 0 <==> forall s :: s in sales ==> s.isSynced
  {
    FilterMembers(sales, Pending);
    var r := Filter(sales, Pending);
    assert |r| > 0 ==> r[0] in r;
    r
  }

  /** The history once the sync has gone through: every sale flagged as synced, nothing else touched. */
  function MarkAllSynced(sales: seq<Sale>): (r: seq<Sale>)
    ensures |r| == |sales|
    ensures forall i :: 0 <= i < |r| ==> r[i].isSynced && r[i].(isSynced := sales[i].isSynced) == sales[i]
  {
    seq(|sales|, i requires 0 <= i < |sales| => sales[i].(isSynced := true))
  }

  /** After a sync nothing is left to send. */
  lemma NothingPendingAfterSync(sales: seq<Sale>)
    ensures OfflineSales(MarkAllSynced(sales)) == []
  {
  }

  /** Whether a sync started on the history `seen` goes ahead: some sale in it is still unsynced. */
  function ReconnectStartsSync(seen: seq<Sale>): (r: bool)
    ensures r <==> exists s :: s in seen && !s.isSynced
  {
    OfflineSales(seen) != []
  }

  /** Syncing twice is syncing once. */
  lemma SyncIdempotent(sales: seq<Sale>)
    ensures MarkAllSynced(MarkAllSynced(sales)) == MarkAllSynced(sales)
  {
  }

  /** Marking a fully synced history changes nothing. */
  lemma SyncOfSyncedIsIdentity(sales: seq<Sale>)
    requires OfflineSales(sales) == []
    ensures MarkAllSynced(sales) == sales
  {
    assert forall i :: 0 <= i < |sales| ==> sales[i] in sales;
  }

  /**
   * `after` is a later state of the history `before`: the old sales are all
   * still there, in place, changed at most by being flagged as synced.
   */
  ghost predicate HistoryExtends(before: seq<Sale>, after: seq<Sale>) {
    && |before| <= |after|
    && forall i :: 0 <= i < |before| ==>
         after[i].(isSynced := before[i].isSynced) == before[i] && (before[i].isSynced ==> after[i].isSynced)
  }

  /** Completing a sale and syncing both extend the history, and so does any succession of them. */
  lemma {:induction false} HistoryOnlyGrows(sales: seq<Sale>, sale: Sale, mid: seq<Sale>, last: seq<Sale>)
    ensures HistoryExtends(sales, sales + [sale])
    ensures HistoryExtends(sales, MarkAllSynced(sales))
    ensures HistoryExtends(sales, mid) && HistoryExtends(mid, last) ==> HistoryExtends(sales, last)
  {
  }

  // ---------------------------------------------------------------------------
  // Catalogue edits and alerts
  // ---------------------------------------------------------------------------

  /** The catalogue after an edit: the product with the edited product's id is replaced, the rest kept. */
  function ReplaceProduct(products: seq<Product>, updated: Product): (r: seq<Product>)
    ensures |r| == |products|
    ensures forall i :: 0 <= i < |r| ==> r[i] == if products[i].id == updated.id then updated else products[i]
  {
    seq(|products|, i requires 0 <= i < |products| => if products[i].id == updated.id then updated else products[i])
  }

  /** Catalogue ids are pairwise distinct. */
  predicate DistinctProductIds(products: seq<Product>) {
    forall i, j :: 0 <= i < j < |products| ==> products[i].id != products[j].id
  }

  /** In a catalogue of distinct ids, an edit replaces one position and leaves the ids as they were. */
  lemma ReplaceOneProduct(products: seq<Product>, updated: Product, k: nat)
    requires DistinctProductIds(products) && k < |products| && products[k].id == updated.id
    ensures ReplaceProduct(products, updated) == products[k := updated]
    ensures DistinctProductIds(ReplaceProduct(products, updated))
  {
  }

  /** An edit of a product the catalogue does not hold changes nothing. */
  lemma ReplaceMissingProduct(products: seq<Product>, updated: Product)
    requires forall i :: 0 <= i < |products| ==> products[i].id != updated.id
    ensures ReplaceProduct(products, updated) == products
  {
  }

  /** The number of products at or below their reorder threshold. */
  function AlertsCount(products: seq<Product>): (r: nat)
    ensures r <= |products|
    ensures r == 0 <==> forall p :: p in products ==> !IsLowStock(p)
    ensures r == |products| <==> forall p :: p in products ==> IsLowStock(p)
  {
    FilterMembers(products, IsLowStock);
    FilterFull(products, IsLowStock);
    var low := Filter(products, IsLowStock);
    assert |low| > 0 ==> low[0] in low;
    |low|
  }

  /** The alert count is the number of low-stock products, counted one by one. */
  lemma AlertsCountIsCount(products: seq<Product>)
    ensures AlertsCount(products) == CountWhere(products, IsLowStock)
  {
    FilterLength(products, IsLowStock);
  }

  /** A sale of non-negative quantities never lowers the alert count. */
  lemma AlertsNeverDropAfterSale(products: seq<Product>, items: seq<CartItem>)
    requires forall k :: 0 <= k < |items| ==> items[k].quantity >= 0
    ensures AlertsCount(StockAfterSale(products, items)) >= AlertsCount(products)
  {
    var after := StockAfterSale(products, items);
    forall i | 0 <= i < |products| && IsLowStock(products[i])
      ensures IsLowStock(after[i])
    {
      assert QuantitySold(items, products[i].id) >= 0;
    }
    FilterLengthMonotone(products, after, IsLowStock);
  }

  // ---------------------------------------------------------------------------
  // The session
  // ---------------------------------------------------------------------------

  /** The screen a user lands on after login: administrators the dashboard, everyone else the till. */
  function LandingTab(role: Role): (r: string)
    ensures r == "dashboard" <==> role == ADMIN
    ensures r == "pos" <==> role != ADMIN
  {
    if role == ADMIN then "dashboard" else "pos"
  }

  // ---------------------------------------------------------------------------
  // The store's state
  // ---------------------------------------------------------------------------

  class AppState {
    var isLoggedIn: bool
    var currentUser: Option<User>
    var activeTab: string
    var isOnline: bool
    var isSyncing: bool
    /** Sync completions scheduled and not yet run (the two-second timer of each started sync). */
    var syncsScheduled: nat
    var sidebarCollapsed: bool
    var products: seq<Product>
    var customers: seq<Customer>
    var suppliers: seq<Supplier>
    var sales: seq<Sale>
    /** The history as the store first rendered it: all the connectivity listener ever sees. */
    var mountSales: seq<Sale>
    var expenses: seq<Expense>
    var settings: StoreSettings

    /** A store opened on saved (or default) collections; `online` is the connectivity at start. */
    constructor (online: bool, products0: seq<Product>, customers0: seq<Customer>, suppliers0: seq<Supplier>,
                 sales0: seq<Sale>, settings0: StoreSettings)
      ensures !isLoggedIn && currentUser.None? && activeTab == "dashboard" && !sidebarCollapsed
      ensures isOnline == online && !isSyncing && syncsScheduled == 0
      ensures products == products0 && customers == customers0 && suppliers == suppliers0
      ensures sales == sales0 && mountSales == sales0 && expenses == [] && settings == settings0
    {
      isLoggedIn := false;
      currentUser := None;
      activeTab := "dashboard";
      isOnline := online;
      isSyncing := false;
      syncsScheduled := 0;
      sidebarCollapsed := false;
      products := products0;
      customers := customers0;
      suppliers := suppliers0;
      sales := sales0;
      mountSales := sales0;
      expenses := [];
      settings := settings0;
    }

    /** The low-stock badge shown in the menu. */
    function Alerts(): (r: nat)
      reads this`products
      ensures r == CountWhere(products, IsLowStock)
    {
      AlertsCountIsCount(products);
      AlertsCount(products)
    }

    /**
     * Records a ticket: appended to the history with its sync flag and points,
     * its quantities taken out of stock, and the named customer's credit and
     * points updated.
     */
    method CompleteSale(sale: Sale)
      modifies this`sales, this`products, this`customers
      ensures sales == old(sales) + [Finalized(sale, settings, isOnline)]
      ensures products == StockAfterSale(old(products), sale.items)
      ensures customers == LedgerAfterSale(old(customers), sale, settings, PointsEarned(settings, sale.total))
    {
      var points := PointsEarned(settings, sale.total);
      sales := sales + [Finalized(sale, settings, isOnline)];
      products := StockAfterSale(products, sale.items);
      if NamesCustomer(sale) {
        customers := LedgerAfterSale(customers, sale, settings, points);
      }
    }

    /**
     * Starts a sync: nothing happens when every sale is synced; otherwise the
     * store shows the syncing state and schedules one completion.
     */
    method SyncOfflineSales()
      modifies this`isSyncing, this`syncsScheduled
      ensures OfflineSales(sales) == [] ==> isSyncing == old(isSyncing) && syncsScheduled == old(syncsScheduled)
      ensures OfflineSales(sales) != [] ==> isSyncing && syncsScheduled == old(syncsScheduled) + 1
    {
      var offline := OfflineSales(sales);
      if |offline| == 0 {
        return;
      }
      isSyncing := true;
      syncsScheduled := syncsScheduled + 1;
    }

    /** A scheduled completion runs: every sale in the history, including any recorded meanwhile, is flagged as synced. */
    method CompleteSync()
      requires syncsScheduled > 0
      modifies this`sales, this`isSyncing, this`syncsScheduled
      ensures sales == MarkAllSynced(old(sales)) && OfflineSales(sales) == []
      ensures !isSyncing && syncsScheduled == old(syncsScheduled) - 1
    {
      sales := MarkAllSynced(sales);
      NothingPendingAfterSync(old(sales));
      isSyncing := false;
      syncsScheduled := syncsScheduled - 1;
    }

    /**
     * The browser reports connectivity: the store goes online and starts a
     * sync on the current history, so every pending sale is picked up.
     */
    method GoOnline()
      modifies this`isOnline, this`isSyncing, this`syncsScheduled
      ensures isOnline
      ensures !ReconnectStartsSync(sales) ==> isSyncing == old(isSyncing) && syncsScheduled == old(syncsScheduled)
      ensures ReconnectStartsSync(sales) ==> isSyncing && syncsScheduled == old(syncsScheduled) + 1
    {
      isOnline := true;
      SyncOfflineSales();
    }

    /**
     * The connectivity listener as registered: it goes online and starts a
     * sync judged on the history it captured when the store first rendered,
     * whatever has been recorded since.
     */
    method GoOnlineAsWritten()
      modifies this`isOnline, this`isSyncing, this`syncsScheduled
      ensures isOnline
      ensures !ReconnectStartsSync(mountSales) ==> isSyncing == old(isSyncing) && syncsScheduled == old(syncsScheduled)
      ensures ReconnectStartsSync(mountSales) ==> isSyncing && syncsScheduled == old(syncsScheduled) + 1
    {
      isOnline := true;
      if ReconnectStartsSync(mountSales) {
        isSyncing := true;
        syncsScheduled := syncsScheduled + 1;
      }
    }

    /** The browser reports the connection lost: later sales are recorded as unsynced. */
    method GoOffline()
      modifies this`isOnline
      ensures !isOnline
    {
      isOnline := false;
    }

    /** Opens a session for `user` on the screen of their role; a cashier's sidebar is collapsed. */
    method Login(user: User)
      modifies this`currentUser, this`isLoggedIn, this`activeTab, this`sidebarCollapsed
      ensures isLoggedIn && currentUser == Some(user) && activeTab == LandingTab(user.role)
      ensures sidebarCollapsed == (user.role == CASHIER || old(sidebarCollapsed))
    {
      currentUser := Some(user);
      isLoggedIn := true;
      activeTab := LandingTab(user.role);
      if user.role == CASHIER {
        sidebarCollapsed := true;
      }
    }

    /** Closes the session; the tab and the sidebar stay as they were. */
    method Logout()
      modifies this`isLoggedIn, this`currentUser
      ensures !isLoggedIn && currentUser.None?
    {
      isLoggedIn := false;
      currentUser := None;
    }

    /** A new product goes in front of the catalogue. */
    method AddProduct(p: Product)
      modifies this`products
      ensures products == [p] + old(products)
    {
      products := [p] + products;
    }

    /** An edited product replaces the one with its id. */
    method UpdateProduct(p: Product)
      modifies this`products
      ensures products == ReplaceProduct(old(products), p)
    {
      products := ReplaceProduct(products, p);
    }

    /** A new customer goes in front of the credit book. */
    method AddCustomer(c: Customer)
      modifies this`customers
      ensures customers == [c] + old(customers)
    {
      customers := [c] + customers;
    }

    /** A new supplier goes in front of the supplier list. */
    method AddSupplier(s: Supplier)
      modifies this`suppliers
      ensures suppliers == [s] + old(suppliers)
    {
      suppliers := [s] + suppliers;
    }

    /** A new expense goes in front of the expense list. */
    method AddExpense(e: Expense)
      modifies this`expenses
      ensures expenses == [e] + old(expenses)
    {
      expenses := [e] + expenses;
    }
  }

  /**
   * A store first rendered offline with no sales records a sale; when the
   * connection returns, the listener as registered starts no sync, although
   * the sale is still pending.
   */
  method StaleListenerMissesOfflineSale(sale: Sale, settings: StoreSettings) returns (store: AppState)
    ensures store.isOnline && !store.isSyncing && store.syncsScheduled == 0
    ensures |store.sales| == 1 && store.sales[0] in OfflineSales(store.sales)
  {
    store := new AppState(false, [], [], [], [], settings);
    store.CompleteSale(sale);
    store.GoOnlineAsWritten();
  }

  /** The same store reconnecting through `GoOnline` schedules the sync that sends the pending sale. */
  method ReconnectPicksUpOfflineSale(sale: Sale, settings: StoreSettings) returns (store: AppState)
    ensures store.isOnline && store.isSyncing && store.syncsScheduled == 1
    ensures |store.sales| == 1 && store.sales[0] in OfflineSales(store.sales)
  {
    store := new AppState(false, [], [], [], [], settings);
    store.CompleteSale(sale);
    store.GoOnline();
  }
}
