/** The vendor dashboard's navigation: the section shown for the current
    address, the menu's route table, and the sidebar and mobile-menu
    toggles. */
module VendorDashboard {
  import opened Js

  datatype Section = Dashboard | Profile | CreateReceipt | ReceiptList | Customers | Shortcuts | Reports

  /** The section a path selects: the first of these checks that holds
      wins, and a path none of them matches keeps the current section. */
  function SectionFor(path: string, current: Section): (s: Section)
    ensures Contains(path, "/createReceipt") ==> s == CreateReceipt
    ensures !Contains(path, "/createReceipt") && Contains(path, "/viewReceipts") ==> s == ReceiptList
    ensures !Contains(path, "/createReceipt") && !Contains(path, "/viewReceipts") && Contains(path, "/customers") ==> s == Customers
    ensures (!Contains(path, "/createReceipt") && !Contains(path, "/viewReceipts") && !Contains(path, "/customers")
             && Contains(path, "/reports")) ==> s == Reports
    ensures (!Contains(path, "/createReceipt") && !Contains(path, "/viewReceipts") && !Contains(path, "/customers")
             && !Contains(path, "/reports") && Contains(path, "/shortcuts")) ==> s == Shortcuts
    ensures (!Contains(path, "/createReceipt") && !Contains(path, "/viewReceipts") && !Contains(path, "/customers")
             && !Contains(path, "/reports") && !Contains(path, "/shortcuts") && Contains(path, "/profile")) ==> s == Profile
    ensures (!Contains(path, "/createReceipt") && !Contains(path, "/viewReceipts") && !Contains(path, "/customers")
             && !Contains(path, "/reports") && !Contains(path, "/shortcuts") && !Contains(path, "/profile")) ==>
      s == (if path == "/vendor" || Contains(path, "/dashboard") then Dashboard else current)
  {
    if Contains(path, "/createReceipt") then CreateReceipt
    else if Contains(path, "/viewReceipts") then ReceiptList
    else if Contains(path, "/customers") then Customers
    else if Contains(path, "/reports") then Reports
    else if Contains(path, "/shortcuts") then Shortcuts
    else if Contains(path, "/profile") then Profile
    else if path == "/vendor" || Contains(path, "/dashboard") then Dashboard
    else current
  }

  /** The menu key of each section. */
  function Key(s: Section): string {
    match s
    case Dashboard => "dashboard"
    case Profile => "profile"
    case CreateReceipt => "createReceipt"
    case ReceiptList => "viewReceipts"
    case Customers => "customers"
    case Shortcuts => "shortcuts"
    case Reports => "reports"
  }

  /** The menu's route table. */
  function Route(key: string): (p: Option<string>)
    ensures p.Some? <==> exists s :: Key(s) == key
  {
    match key
    case "dashboard" => assert Key(Dashboard) == key; Some("/vendor/dashboard")
    case "profile" => assert Key(Profile) == key; Some("/vendor/profile")
    case "createReceipt" => assert Key(CreateReceipt) == key; Some("/vendor/createReceipt")
    case "viewReceipts" => assert Key(ReceiptList) == key; Some("/vendor/viewReceipts")
    case "customers" => assert Key(Customers) == key; Some("/vendor/customers")
    case "shortcuts" => assert Key(Shortcuts) == key; Some("/vendor/shortcuts")
    case "reports" => assert Key(Reports) == key; Some("/vendor/reports")
    case _ =>
      assert forall s: Section :: Key(s) != key;
      None
  }

  /** Every character of a needle found in a text occurs in the text. */
  lemma FoundNeedleCharsOccur(hay: string, needle: string, k: nat)
    requires Contains(hay, needle) && k < |needle|
    ensures needle[k] in hay
  {
    var i :| 0 <= i <= |hay| && needle <= hay[i..];
    assert hay[i..][k] == needle[k];
  }

  /** A needle found at position `i` is contained. */
  lemma FoundAt(hay: string, needle: string, i: nat)
    requires i <= |hay| && needle <= hay[i..]
    ensures Contains(hay, needle)
  {
  }

  /** Choosing a menu entry leads to an address that selects that entry's
      section, whatever section was shown before. */
  lemma MenuLandsOnItsSection(s: Section, current: Section)
    ensures Route(Key(s)).Some? && SectionFor(Route(Key(s)).value, current) == s
  {
    match s
    case Dashboard =>
      assert Route(Key(s)) == Some("/vendor/dashboard");
      DashboardRouteSelects(current);
    case Profile =>
      assert Route(Key(s)) == Some("/vendor/profile");
      ProfileRouteSelects(current);
    case CreateReceipt =>
      assert Route(Key(s)) == Some("/vendor/createReceipt");
      CreateReceiptRouteSelects(current);
    case ReceiptList =>
      assert Route(Key(s)) == Some("/vendor/viewReceipts");
      ReceiptListRouteSelects(current);
    case Customers =>
      assert Route(Key(s)) == Some("/vendor/customers");
      CustomersRouteSelects(current);
    case Shortcuts =>
      assert Route(Key(s)) == Some("/vendor/shortcuts");
      ShortcutsRouteSelects(current);
    case Reports =>
      assert Route(Key(s)) == Some("/vendor/reports");
      ReportsRouteSelects(current);
  }

  lemma DashboardRouteSelects(current: Section)
    ensures SectionFor("/vendor/dashboard", current) == Dashboard
  {
    NotContains("/vendor/dashboard", "/createReceipt", 1);
    NotContains("/vendor/dashboard", "/viewReceipts", 4);
    NotContains("/vendor/dashboard", "/customers", 1);
    NotContains("/vendor/dashboard", "/reports", 3);
    NotContains("/vendor/dashboard", "/shortcuts", 6);
    NotContains("/vendor/dashboard", "/profile", 1);
    FoundAt("/vendor/dashboard", "/dashboard", 7);
  }

  lemma ProfileRouteSelects(current: Section)
    ensures SectionFor("/vendor/profile", current) == Profile
  {
    NotContains("/vendor/profile", "/createReceipt", 1);
    NotContains("/vendor/profile", "/viewReceipts", 4);
    NotContains("/vendor/profile", "/customers", 1);
    NotContains("/vendor/profile", "/reports", 6);
    NotContains("/vendor/profile", "/shortcuts", 6);
    FoundAt("/vendor/profile", "/profile", 7);
  }

  lemma CreateReceiptRouteSelects(current: Section)
    ensures SectionFor("/vendor/createReceipt", current) == CreateReceipt
  {
    FoundAt("/vendor/createReceipt", "/createReceipt", 7);
  }

  lemma ReceiptListRouteSelects(current: Section)
    ensures SectionFor("/vendor/viewReceipts", current) == ReceiptList
  {
    NotContains("/vendor/viewReceipts", "/createReceipt", 4);
    FoundAt("/vendor/viewReceipts", "/viewReceipts", 7);
  }

  lemma CustomersRouteSelects(current: Section)
    ensures SectionFor("/vendor/customers", current) == Customers
  {
    NotContains("/vendor/customers", "/createReceipt", 4);
    NotContains("/vendor/customers", "/viewReceipts", 4);
    FoundAt("/vendor/customers", "/customers", 7);
  }

  lemma ShortcutsRouteSelects(current: Section)
    ensures SectionFor("/vendor/shortcuts", current) == Shortcuts
  {
    NotContains("/vendor/shortcuts", "/createReceipt", 4);
    NotContains("/vendor/shortcuts", "/viewReceipts", 4);
    NotContains("/vendor/shortcuts", "/customers", 6);
    NotContains("/vendor/shortcuts", "/reports", 3);
    FoundAt("/vendor/shortcuts", "/shortcuts", 7);
  }

  lemma ReportsRouteSelects(current: Section)
    ensures SectionFor("/vendor/reports", current) == Reports
  {
    NotContains("/vendor/reports", "/createReceipt", 4);
    NotContains("/vendor/reports", "/viewReceipts", 4);
    NotContains("/vendor/reports", "/customers", 1);
    FoundAt("/vendor/reports", "/reports", 7);
  }

  /** A needle holding a character the text lacks is not contained. */
  lemma NotContains(hay: string, needle: string, k: nat)
    requires k < |needle| && needle[k] !in hay
    ensures !Contains(hay, needle)
  {
    if Contains(hay, needle) {
      FoundNeedleCharsOccur(hay, needle, k);
    }
  }

  /** The receipt editor's address, with a numeric id, matches no check
      and keeps the section that was shown. */
  lemma EditReceiptKeepsSection(id: string, current: Section)
    requires AllDigits(id)
    ensures SectionFor("/vendor/editReceipt/" + id, current) == current
  {
    var p := "/vendor/editReceipt/" + id;
    assert forall i :: 20 <= i < |p| ==> IsDigit(p[i]) by {
      assert forall i :: 20 <= i < |p| ==> p[i] == id[i - 20];
    }
    assert forall i :: 0 <= i < |p| ==> p[i] != 'a' && p[i] != 'w' && p[i] != 'u' && p[i] != 's' && p[i] != 'h' && p[i] != 'f';
    NotContains(p, "/createReceipt", 4);
    NotContains(p, "/viewReceipts", 4);
    NotContains(p, "/customers", 2);
    NotContains(p, "/reports", 7);
    NotContains(p, "/shortcuts", 2);
    NotContains(p, "/profile", 4);
    NotContains(p, "/dashboard", 2);
  }

  /** What a menu click does besides closing the mobile menu. */
  datatype MenuAction = Logout | NavigateTo(path: string) | NoAction

  /** `handleMenuClick(key)`: "logout" logs out, a key of the table
      navigates to its route, any other key does nothing. */
  function MenuClick(key: string): (a: MenuAction)
    ensures key == "logout" <==> a.Logout?
    ensures key != "logout" ==> (a.NavigateTo? <==> Route(key).Some?)
    ensures a.NavigateTo? ==> a.path == Route(key).value
  {
    if key == "logout" then Logout
    else match Route(key)
      case Some(p) => NavigateTo(p)
      case None => NoAction
  }

  /** The dashboard's navigation state. */
  class Navigation {
    var collapsed: bool
    var isMobileMenuOpen: bool
    var currentSection: Section

    constructor ()
      ensures !collapsed && !isMobileMenuOpen && currentSection == Dashboard
    {
      collapsed := false;
      isMobileMenuOpen := false;
      currentSection := Dashboard;
    }

    method ToggleSidebar()
      modifies this
      ensures collapsed == !old(collapsed)
      ensures isMobileMenuOpen == old(isMobileMenuOpen) && currentSection == old(currentSection)
    {
      collapsed := !collapsed;
    }

    method ToggleMobileMenu()
      modifies this
      ensures isMobileMenuOpen == !old(isMobileMenuOpen)
      ensures collapsed == old(collapsed) && currentSection == old(currentSection)
    {
      isMobileMenuOpen := !isMobileMenuOpen;
    }

    /** The address changed. */
    method PathChanged(path: string)
      modifies this
      ensures currentSection == SectionFor(path, old(currentSection))
      ensures collapsed == old(collapsed) && isMobileMenuOpen == old(isMobileMenuOpen)
    {
      currentSection := SectionFor(path, currentSection);
    }

    /** A menu click: the action to take, and the mobile menu closed. */
    method HandleMenuClick(key: string) returns (a: MenuAction)
      modifies this
      ensures a == MenuClick(key)
      ensures !isMobileMenuOpen
      ensures collapsed == old(collapsed) && currentSection == old(currentSection)
    {
      a := MenuClick(key);
      if isMobileMenuOpen {
        isMobileMenuOpen := false;
      }
    }
  }
}
