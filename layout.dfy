/**
 * The application frame: the menu table, the entries each role sees, and the
 * title shown for the active tab.
 */
module Layout {
  import opened Wrappers
  import opened Types
  import opened Lists
  import opened App

  /** The entries of the menu; each carries the tab it opens, its caption and the roles allowed to see it. */
  datatype MenuEntry = Dashboard | Till | History | Stock | CreditBook | SupplierList | ExpenseBook | Setup {
    /** The tab the entry opens. */
    function Id(): string {
      match this
      case Dashboard => "dashboard"
      case Till => "pos"
      case History => "history"
      case Stock => "inventory"
      case CreditBook => "customers"
      case SupplierList => "suppliers"
      case ExpenseBook => "expenses"
      case Setup => "settings"
    }

    /** The caption shown in the sidebar and as the page title. */
    function Caption(): string {
      match this
      case Dashboard => "Tableau de bord"
      case Till => "Vente (POS)"
      case History => "Historique"
      case Stock => "Stock & Produits"
      case CreditBook => "Clients (Carnet)"
      case SupplierList => "Fournisseurs"
      case ExpenseBook => "Dépenses"
      case Setup => "Paramètres"
    }

    function Roles(): seq<Role> {
      match this
      case Till | History | CreditBook => [ADMIN, CASHIER]
      case _ => [ADMIN]
    }
  }

  /** The menu, in display order. */
  const MenuItems: seq<MenuEntry> := [Dashboard, Till, History, Stock, CreditBook, SupplierList, ExpenseBook, Setup]

  predicate VisibleTo(item: MenuEntry, role: Role) {
    role in item.Roles()
  }

  /** The sidebar's test for `role`, as a function value. */
  function SeenBy(role: Role): MenuEntry -> bool {
    (m: MenuEntry) => VisibleTo(m, role)
  }

  /** The entries `role` sees, in menu order. */
  function VisibleMenu(role: Role): (r: seq<MenuEntry>)
    ensures forall m :: m in r <==> m in MenuItems && role in m.Roles()
    ensures IsSubsequence(r, MenuItems)
  {
    var keep := SeenBy(role);
    FilterMembers(MenuItems, keep);
    FilterIsSubsequence(MenuItems, keep);
    Filter(MenuItems, keep)
  }

  function Ids(items: seq<MenuEntry>): (r: seq<string>)
    ensures |r| == |items| && forall i :: 0 <= i < |r| ==> r[i] == items[i].Id()
  {
    seq(|items|, i requires 0 <= i < |items| => items[i].Id())
  }

  /** No two entries of the menu open the same tab. */
  lemma MenuIdsDistinct()
    ensures forall i, j :: 0 <= i < j < |MenuItems| ==> MenuItems[i].Id() != MenuItems[j].Id()
  {
    forall i, j | 0 <= i < j < |MenuItems|
      ensures MenuItems[i].Id() != MenuItems[j].Id()
    {
      assert MenuItems[i] != MenuItems[j];
    }
  }

  /** An administrator sees the whole menu. */
  lemma AdminSeesEverything()
    ensures VisibleMenu(ADMIN) == MenuItems
  {
    FilterKeepsAll(MenuItems, SeenBy(ADMIN));
  }

  /** The cashier's test keeps the till, the history and the credit book of the menu. */
  lemma CashierSelection()
    ensures Filter(MenuItems, SeenBy(CASHIER)) == [Till, History, CreditBook]
  {
    var keep := SeenBy(CASHIER);
    var m := MenuItems;
    assert Filter(m[7..], keep) == [] by { FilterCons(m[7], [], keep); assert m[7..] == [m[7]] + []; }
    assert Filter(m[6..], keep) == [] by { FilterCons(m[6], m[7..], keep); assert m[6..] == [m[6]] + m[7..]; }
    assert Filter(m[5..], keep) == [] by { FilterCons(m[5], m[6..], keep); assert m[5..] == [m[5]] + m[6..]; }
    assert Filter(m[4..], keep) == [m[4]] by { FilterCons(m[4], m[5..], keep); assert m[4..] == [m[4]] + m[5..]; }
    assert Filter(m[3..], keep) == [m[4]] by { FilterCons(m[3], m[4..], keep); assert m[3..] == [m[3]] + m[4..]; }
    assert Filter(m[2..], keep) == [m[2], m[4]] by { FilterCons(m[2], m[3..], keep); assert m[2..] == [m[2]] + m[3..]; }
    assert Filter(m[1..], keep) == [m[1], m[2], m[4]] by { FilterCons(m[1], m[2..], keep); assert m[1..] == [m[1]] + m[2..]; }
    FilterCons(m[0], m[1..], keep);
    assert m == [m[0]] + m[1..];
  }

  /** A cashier sees the till, the history and the credit book, in that order, and nothing else. */
  lemma CashierMenu()
    ensures VisibleMenu(CASHIER) == [Till, History, CreditBook]
  {
    CashierSelection();
  }

  /** The tabs a cashier can open are the till, the history and the credit book. */
  lemma CashierTabs()
    ensures Ids(VisibleMenu(CASHIER)) == ["pos", "history", "customers"]
  {
    CashierMenu();
    var v := VisibleMenu(CASHIER);
    assert Ids(v) == [v[0].Id(), v[1].Id(), v[2].Id()];
  }

  /** The dashboard is never offered to a cashier. */
  lemma DashboardHiddenFromCashier()
    ensures forall m :: m in VisibleMenu(CASHIER) ==> m.Id() != "dashboard"
  {
    CashierMenu();
  }

  /** The caption above the content: that of the entry whose id is the active tab, if any. */
  function HeaderTitle(activeTab: string): (r: Option<string>)
    ensures r.Some? <==> exists m :: m in MenuItems && m.Id() == activeTab
    ensures r.Some? ==> exists m :: m in MenuItems && m.Id() == activeTab && m.Caption() == r.value
  {
    match FindFirst(MenuItems, (m: MenuEntry) => m.Id() == activeTab)
    case None => None
    case Some(k) => Some(MenuItems[k].Caption())
  }

  /** Every tab of the menu is titled with its own caption. */
  lemma EveryTabHasItsTitle(k: nat)
    requires k < |MenuItems|
    ensures HeaderTitle(MenuItems[k].Id()) == Some(MenuItems[k].Caption())
  {
    var id := MenuItems[k].Id();
    var found := FindFirst(MenuItems, (m: MenuEntry) => m.Id() == id);
    assert found.Some?;
    MenuIdsDistinct();
  }

  /** The tab a user lands on after login is one of the entries their role sees. */
  lemma LandingTabIsVisible(role: Role)
    ensures exists m :: m in VisibleMenu(role) && m.Id() == LandingTab(role)
  {
    if role == ADMIN {
      AdminSeesEverything();
      assert MenuItems[0] in VisibleMenu(role);
    } else {
      assert Till in MenuItems && role in Till.Roles();
      assert Till in VisibleMenu(role) && Till.Id() == "pos";
    }
  }
}
