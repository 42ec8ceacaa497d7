/**
 * The sidebar (client/src/components/Sidebar/Sidebar.tsx): the menu tree,
 * the accordion state (`isCollapsed`, `activeMenu`) with its two handlers,
 * the `isActive` highlight, the click dispatch and the submenu visibility.
 *
 * The router is outside the model: the current pathname is a parameter and
 * each `navigate` call is recorded. Icons are left out.
 */
module Sidebar {
  import opened Text

  /** A submenu entry; an absent nested submenu is the empty sequence, since it is only searched. */
  datatype SubMenuItem = SubMenuItem(title: string, path: string, submenu: seq<SubMenuItem>)

  /** A top-level entry: a page link, a submenu, or (in principle) both or neither. */
  datatype MenuItem = MenuItem(title: string, path: Option<string>, submenu: Option<seq<SubMenuItem>>)

  function Leaf(title: string, path: string): SubMenuItem {
    SubMenuItem(title, path, [])
  }

  function Group(title: string, subs: seq<SubMenuItem>): MenuItem {
    MenuItem(title, None, Some(subs))
  }

  /** The Master Data group as written: the warehouse entry's path has no leading slash. */
  const MasterDataAsWritten: MenuItem := Group("Master Data", [
    Leaf("Supplier Management", "/supplier-management"),
    Leaf("Customer Management", "/customer-management"),
    Leaf("inventory-master", "/inventory-master"),
    Leaf("warehouse-master", "warehouse-master")])

  /** The Master Data group with the warehouse path rooted like every other path. */
  const MasterData: MenuItem := Group("Master Data", [
    Leaf("Supplier Management", "/supplier-management"),
    Leaf("Customer Management", "/customer-management"),
    Leaf("inventory-master", "/inventory-master"),
    Leaf("warehouse-master", "/warehouse-master")])

  /** The menu, with a given Master Data group. */
  function MenuWith(masterData: MenuItem): (r: seq<MenuItem>)
    ensures |r| == 7 && r[3] == masterData
  {
    [ MenuItem("Dashboard", Some("/dashboard"), None),
      Group("Inbound Operations", [Leaf("ASN Management", "/inbound/asn"), Leaf("Receiving", "/inbound/receiving")]),
      Group("Outbound Operations", [Leaf("Order Processing", "/outbound/orders"), Leaf("Shipping", "/outbound/shipping")]),
      masterData,
      Group("Inventory", [Leaf("Stock Levels", "/inventory/stock"), Leaf("Products", "/inventory/products")]),
      Group("Reports", [Leaf("Inventory Reports", "/reports/inventory"), Leaf("Sales Reports", "/reports/sales")]),
      MenuItem("Settings", Some("/settings"), None) ]
  }

  /** `menuItems` as written. */
  function MenuItemsAsWritten(): seq<MenuItem> {
    MenuWith(MasterDataAsWritten)
  }

  /** The menu the model uses. */
  function MenuItems(): seq<MenuItem> {
    MenuWith(MasterData)
  }

  /** A submenu entry, or one of its own entries, is the current page. */
  predicate SubMatches(sub: SubMenuItem, pathname: string) {
    sub.path == pathname || exists k :: 0 <= k < |sub.submenu| && sub.submenu[k].path == pathname
  }

  /** The `isActive` flag of an item. */
  predicate IsActive(item: MenuItem, activeMenu: string, pathname: string) {
    activeMenu == ToLower(item.title)
    || item.path == Some(pathname)
    || (item.submenu.Some? && exists j :: 0 <= j < |item.submenu.value| && SubMatches(item.submenu.value[j], pathname))
  }

  /** Any entry of a group that is the current page highlights the group, whatever the open menu. */
  lemma CurrentSubmenuHighlightsGroup(item: MenuItem, activeMenu: string, j: nat)
    requires item.submenu.Some? && j < |item.submenu.value|
    ensures IsActive(item, activeMenu, item.submenu.value[j].path)
  {
  }

  /** A path without a leading slash is never the current pathname, which always has one. */
  lemma UnrootedPathNeverCurrent(path: string, pathname: string)
    requires |pathname| > 0 && pathname[0] == '/'
    requires path == "" || path[0] != '/'
    ensures path != pathname
  {
  }

  /** As written, the warehouse page does not highlight Master Data unless that menu is open. */
  lemma WarehousePageNotHighlightedAsWritten()
    ensures !IsActive(MasterDataAsWritten, "", "/warehouse-master")
  {
    AsWrittenEntriesMissWarehouse();
    MasterDataKeyNotEmpty();
  }

  /** No entry of the Master Data group as written is the warehouse page. */
  lemma AsWrittenEntriesMissWarehouse()
    ensures forall j :: 0 <= j < |MasterDataAsWritten.submenu.value| ==>
      !SubMatches(MasterDataAsWritten.submenu.value[j], "/warehouse-master")
  {
    var subs := MasterDataAsWritten.submenu.value;
    var pathname := "/warehouse-master";
    forall j | 0 <= j < |subs|
      ensures !SubMatches(subs[j], pathname)
    {
      if j == 3 {
        UnrootedPathNeverCurrent(subs[j].path, pathname);
      } else {
        EntryMissesWarehouse(subs[j], pathname);
      }
    }
  }

  lemma EntryMissesWarehouse(sub: SubMenuItem, pathname: string)
    requires sub.submenu == [] && |sub.path| >= 2 && sub.path[1] != 'w'
    requires pathname == "/warehouse-master"
    ensures !SubMatches(sub, pathname)
  {
    assert pathname[1] == 'w';
  }

  lemma MasterDataKeyNotEmpty()
    ensures ToLower(MasterDataAsWritten.title) != ""
  {
    assert |ToLower(MasterDataAsWritten.title)| == |MasterDataAsWritten.title|;
  }

  /** With the rooted path, the warehouse page highlights Master Data in every state. */
  lemma WarehousePageHighlighted(activeMenu: string)
    ensures IsActive(MasterData, activeMenu, "/warehouse-master")
  {
    CurrentSubmenuHighlightsGroup(MasterData, activeMenu, 3);
  }

  /** `handleMenuClick`: clicking the open menu closes it, any other menu opens instead. */
  function MenuClicked(activeMenu: string, menu: string): (r: string)
    ensures r == "" <==> activeMenu == menu || menu == ""
    ensures r != "" ==> r == menu
  {
    if activeMenu == menu then "" else menu
  }

  /** Clicking the same menu twice restores the state exactly when no other menu was open. */
  lemma DoubleClickRestores(activeMenu: string, menu: string)
    ensures MenuClicked(MenuClicked(activeMenu, menu), menu) == activeMenu <==> activeMenu == "" || activeMenu == menu
  {
  }

  /** What clicking a top-level item does. */
  datatype ClickEffect = NavigateTo(path: string) | ToggleMenu(menu: string) | NoEffect

  /** The click handler: a non-empty path navigates; otherwise a submenu toggles its lowercased title. */
  function ClickEffectOf(item: MenuItem): (r: ClickEffect)
    ensures item.path.Some? && item.path.value != "" <==> r.NavigateTo?
    ensures r.NavigateTo? ==> r.path == item.path.value
    ensures r.ToggleMenu? <==> !(item.path.Some? && item.path.value != "") && item.submenu.Some?
    ensures r.ToggleMenu? ==> r.menu == ToLower(item.title)
  {
    if item.path.Some? && item.path.value != "" then NavigateTo(item.path.value)
    else if item.submenu.Some? then ToggleMenu(ToLower(item.title))
    else NoEffect
  }

  /** The submenu of an item is shown when expanded, when it has one, and when it is the open menu. */
  predicate ShowsSubmenu(isCollapsed: bool, item: MenuItem, activeMenu: string) {
    !isCollapsed && item.submenu.Some? && activeMenu == ToLower(item.title)
  }

  /** Among items whose lowercased titles differ, at most one submenu is shown. */
  lemma AtMostOneSubmenuShown(items: seq<MenuItem>, isCollapsed: bool, activeMenu: string, i: nat, j: nat)
    requires i < |items| && j < |items|
    requires forall a, b :: 0 <= a < b < |items| ==> ToLower(items[a].title) != ToLower(items[b].title)
    requires ShowsSubmenu(isCollapsed, items[i], activeMenu) && ShowsSubmenu(isCollapsed, items[j], activeMenu)
    ensures i == j
  {
  }

  /** Clicking a submenu group opens its submenu when it was closed, and closes it when it was open. */
  lemma ClickTogglesShownSubmenu(item: MenuItem, activeMenu: string)
    requires ClickEffectOf(item).ToggleMenu? && item.title != ""
    ensures ShowsSubmenu(false, item, MenuClicked(activeMenu, ClickEffectOf(item).menu))
      <==> !ShowsSubmenu(false, item, activeMenu)
  {
    assert |ToLower(item.title)| == |item.title|;
  }

  /** The sidebar's state hooks, and the navigations it has asked the router for. */
  class SidebarState {
    var isCollapsed: bool
    var activeMenu: string
    var navigations: seq<string>

    constructor ()
      ensures !isCollapsed && activeMenu == "" && navigations == []
    {
      isCollapsed := false;
      activeMenu := "";
      navigations := [];
    }

    /** `toggleSidebar`: flip; collapsing also closes the open menu. */
    method ToggleSidebar()
      modifies this
      ensures isCollapsed == !old(isCollapsed)
      ensures !old(isCollapsed) ==> activeMenu == ""
      ensures old(isCollapsed) ==> activeMenu == old(activeMenu)
      ensures navigations == old(navigations)
    {
      var wasCollapsed := isCollapsed;
      isCollapsed := !wasCollapsed;
      if !wasCollapsed {
        activeMenu := "";
      }
    }

    /** `handleMenuClick(menu)`. */
    method HandleMenuClick(menu: string)
      modifies this
      ensures activeMenu == MenuClicked(old(activeMenu), menu)
      ensures isCollapsed == old(isCollapsed) && navigations == old(navigations)
    {
      activeMenu := if activeMenu == menu then "" else menu;
    }

    /** The `onClick` of a top-level item. */
    method ClickItem(item: MenuItem)
      modifies this
      ensures ClickEffectOf(item).NavigateTo? ==>
        navigations == old(navigations) + [ClickEffectOf(item).path] && activeMenu == old(activeMenu)
      ensures ClickEffectOf(item).ToggleMenu? ==>
        activeMenu == MenuClicked(old(activeMenu), ClickEffectOf(item).menu) && navigations == old(navigations)
      ensures ClickEffectOf(item).NoEffect? ==> activeMenu == old(activeMenu) && navigations == old(navigations)
      ensures isCollapsed == old(isCollapsed)
    {
      if item.path.Some? && item.path.value != "" {
        navigations := navigations + [item.path.value];
      } else if item.submenu.Some? {
        HandleMenuClick(ToLower(item.title));
      }
    }

    /** The submenus on screen, by position in the menu. */
    function ShownSubmenus(items: seq<MenuItem>): (r: set<nat>)
      reads this
      ensures forall i: nat :: i in r <==> i < |items| && ShowsSubmenu(isCollapsed, items[i], activeMenu)
    {
      set i: nat | i < |items| && ShowsSubmenu(isCollapsed, items[i], activeMenu)
    }
  }

  /** Collapsing the sidebar hides every submenu, and expanding it again shows none until a menu is clicked. */
  lemma CollapseHidesSubmenus(items: seq<MenuItem>, activeMenu: string, i: nat)
    requires i < |items| && items[i].title != ""
    ensures !ShowsSubmenu(true, items[i], activeMenu)
    ensures !ShowsSubmenu(false, items[i], "")
  {
    assert |ToLower(items[i].title)| == |items[i].title|;
  }
}
