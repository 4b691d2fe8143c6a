// app/navigation-example/main-app-flow.tsx: a bottom tab bar over four
// screens, an `activeTab` selector and an `isDrawerOpen` flag; the drawer
// repeats the four tabs as menu items and offers a logout.

module MainAppFlow {
  import opened Options

  datatype Tab = Home | Notifications | Profile | Settings

  /** The four screen components; each is given `onMenuPress={toggleDrawer}`. */
  datatype MainScreen = HomeScreen | NotificationsScreen | ProfileScreen | SettingsScreen

  /** The tab each screen belongs to. */
  function TabOf(s: MainScreen): Tab {
    match s
    case HomeScreen => Home
    case NotificationsScreen => Notifications
    case ProfileScreen => Profile
    case SettingsScreen => Settings
  }

  /** `renderScreen`: every tab has its screen, so the `default` branch
      returning `null` is never taken. */
  function RenderScreen(tab: Tab): (s: MainScreen)
    ensures TabOf(s) == tab
  {
    match tab
    case Home => HomeScreen
    case Notifications => NotificationsScreen
    case Profile => ProfileScreen
    case Settings => SettingsScreen
  }

  /** Different tabs show different screens. */
  lemma RenderScreenInjective(a: Tab, b: Tab)
    ensures RenderScreen(a) == RenderScreen(b) ==> a == b
  {
    assert TabOf(RenderScreen(a)) == a && TabOf(RenderScreen(b)) == b;
  }

  /** The drawer's menu items in the order they are listed. */
  const MenuTabs: seq<Tab> := [Home, Notifications, Profile, Settings]

  /** A menu item: its tab and whether it is drawn highlighted. */
  datatype MenuItem = MenuItem(tab: Tab, highlighted: bool)

  /** `renderDrawer`: nothing while the drawer is closed; otherwise the
      four menu items, the one of the active tab highlighted. */
  function RenderDrawer(activeTab: Tab, isDrawerOpen: bool): (r: Option<seq<MenuItem>>)
    ensures r.Some? <==> isDrawerOpen
    ensures r.Some? ==> |r.value| == |MenuTabs|
    ensures r.Some? ==> forall i :: 0 <= i < |r.value| ==>
      r.value[i].tab == MenuTabs[i] && (r.value[i].highlighted <==> MenuTabs[i] == activeTab)
  {
    if !isDrawerOpen then None
    else Some(seq(|MenuTabs|, i requires 0 <= i < |MenuTabs| => MenuItem(MenuTabs[i], MenuTabs[i] == activeTab)))
  }

  /** In the open drawer exactly one item is highlighted, the active tab's. */
  lemma DrawerHighlightsOneItem(activeTab: Tab, i: int, j: int)
    requires 0 <= i < |MenuTabs| && 0 <= j < |MenuTabs|
    ensures RenderDrawer(activeTab, true).Some?
    ensures exists k :: 0 <= k < |MenuTabs| && RenderDrawer(activeTab, true).value[k].highlighted
    ensures RenderDrawer(activeTab, true).value[i].highlighted && RenderDrawer(activeTab, true).value[j].highlighted ==> i == j
  {
    var items := RenderDrawer(activeTab, true).value;
    var k := match activeTab case Home => 0 case Notifications => 1 case Profile => 2 case Settings => 3;
    assert items[k].highlighted;
  }

  class MainAppFlowState {
    var activeTab: Tab
    var isDrawerOpen: bool

    constructor ()
      ensures activeTab == Home && !isDrawerOpen
    {
      activeTab := Home;
      isDrawerOpen := false;
    }

    /** `toggleDrawer`, also every screen's menu button. */
    method ToggleDrawer()
      modifies this`isDrawerOpen
      ensures isDrawerOpen == !old(isDrawerOpen)
      ensures activeTab == old(activeTab)
    {
      isDrawerOpen := !isDrawerOpen;
    }

    /** `handleTabPress`, called by the tab bar and by the drawer's menu
        items: select the tab and close the drawer, whatever the state. */
    method HandleTabPress(tab: Tab)
      modifies this`activeTab, this`isDrawerOpen
      ensures activeTab == tab && !isDrawerOpen
    {
      activeTab := tab;
      isDrawerOpen := false;
    }

    /** A press on the dimmed background beside the open drawer. */
    method PressDrawerBackground()
      modifies this`isDrawerOpen
      ensures !isDrawerOpen
      ensures activeTab == old(activeTab)
    {
      isDrawerOpen := false;
    }
  }

  /** Toggling the drawer twice restores the whole state. */
  method ToggleTwice(app: MainAppFlowState)
    modifies app
    ensures app.isDrawerOpen == old(app.isDrawerOpen)
    ensures app.activeTab == old(app.activeTab)
  {
    app.ToggleDrawer();
    app.ToggleDrawer();
  }

  /** A second press on the same tab changes nothing. */
  method PressTabTwice(app: MainAppFlowState, tab: Tab)
    modifies app
    ensures app.activeTab == tab && !app.isDrawerOpen
  {
    app.HandleTabPress(tab);
    var afterFirst := (app.activeTab, app.isDrawerOpen);
    app.HandleTabPress(tab);
    assert (app.activeTab, app.isDrawerOpen) == afterFirst;
  }
}
