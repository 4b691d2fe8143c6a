// app/navigation-example/nested-navigation.tsx: a bottom tab bar of three
// tabs nested with a profile-settings drawer: an `activeTab` name, a
// `drawerOpen` flag and the drawer's slide animation. The drawer's own
// items carry no press handler.

module NestedNavigation {
  import opened Options
  import opened DrawerAnimation

  /** The names the tab bar's three tabs set, in the order they appear. */
  const TabNames: seq<string> := ["home", "search", "profile"]

  /** The three panels of `renderTabContent`; only the profile panel has a
      button, "Edit Profile Settings". */
  datatype TabContent = HomeContent | SearchContent | ProfileContent

  /** The tab, by index into `TabNames`, whose panel this is. */
  function ContentIndex(c: TabContent): (i: nat)
    ensures i < |TabNames|
  {
    match c
    case HomeContent => 0
    case SearchContent => 1
    case ProfileContent => 2
  }

  /** `renderTabContent`: the panel of the named tab, and `null` for a name
      the tab bar never sets. */
  function RenderTabContent(activeTab: string): (c: Option<TabContent>)
    ensures c.Some? <==> activeTab in TabNames
    ensures c.Some? ==> TabNames[ContentIndex(c.value)] == activeTab
  {
    if activeTab == TabNames[0] then Some(HomeContent)
    else if activeTab == TabNames[1] then Some(SearchContent)
    else if activeTab == TabNames[2] then Some(ProfileContent)
    else None
  }

  class NestedNavigationScreen {
    var activeTab: string
    var drawerOpen: bool
    /** The value the drawer's animation last headed for. */
    var animationTarget: int

    /** The tab is one the tab bar sets, so a panel is always shown, and the
        animation heads for the resting value of the flag. */
    predicate Valid()
      reads this
    {
      activeTab in TabNames && animationTarget == Resting(drawerOpen)
    }

    constructor ()
      ensures activeTab == "home" && !drawerOpen && animationTarget == 0
      ensures Valid()
    {
      activeTab := "home";
      drawerOpen := false;
      animationTarget := 0;
    }

    /** `toggleDrawer`, also the header's menu button: the animation heads
        for 1 when opening and 0 when closing, and the flag flips. */
    method ToggleDrawer() returns (target: int)
      modifies this`drawerOpen, this`animationTarget
      ensures target == (if old(drawerOpen) then 0 else 1)
      ensures animationTarget == target && drawerOpen == !old(drawerOpen)
      ensures animationTarget == Resting(drawerOpen)
    {
      target := ToggleTarget(drawerOpen);
      animationTarget := target;
      drawerOpen := !drawerOpen;
    }

    /** A press on tab `i` of the tab bar: the tab changes, the drawer does
        not. */
    method PressTab(i: nat)
      requires i < |TabNames|
      modifies this`activeTab
      ensures activeTab == TabNames[i]
      ensures drawerOpen == old(drawerOpen) && animationTarget == old(animationTarget)
      ensures old(Valid()) ==> Valid()
    {
      activeTab := TabNames[i];
    }

    /** "Edit Profile Settings", shown only on the profile panel: it toggles
        the drawer and leaves the tab alone. */
    method PressEditProfileSettings()
      modifies this`drawerOpen, this`animationTarget
      ensures activeTab == old(activeTab)
      ensures RenderTabContent(activeTab) == Some(ProfileContent) ==>
        drawerOpen == !old(drawerOpen) && animationTarget == Resting(drawerOpen)
      ensures RenderTabContent(activeTab) != Some(ProfileContent) ==>
        drawerOpen == old(drawerOpen) && animationTarget == old(animationTarget)
    {
      if RenderTabContent(activeTab) == Some(ProfileContent) {
        var _ := ToggleDrawer();
      }
    }

    /** The overlay is rendered exactly while the drawer is open. */
    predicate OverlayShown()
      reads this
    {
      drawerOpen
    }

    /** A press on the overlay toggles, which closes the drawer; with the
        drawer closed there is no overlay to press. */
    method PressOverlay()
      modifies this`drawerOpen, this`animationTarget
      ensures old(OverlayShown()) ==> !drawerOpen && animationTarget == 0
      ensures !old(OverlayShown()) ==> drawerOpen == old(drawerOpen) && animationTarget == old(animationTarget)
      ensures activeTab == old(activeTab)
    {
      if OverlayShown() {
        var _ := ToggleDrawer();
      }
    }

    /** The drawer's items (Edit Profile, Privacy, ..., Logout) have no
        press handler: a press changes nothing. */
    method PressDrawerItem()
      ensures activeTab == old(activeTab) && drawerOpen == old(drawerOpen)
    {
    }
  }

  /** Toggling twice is the identity on the flag and leaves the tab alone. */
  method ToggleTwice(screen: NestedNavigationScreen) returns (first: int, second: int)
    modifies screen
    ensures screen.drawerOpen == old(screen.drawerOpen)
    ensures screen.activeTab == old(screen.activeTab)
    ensures first == Resting(!old(screen.drawerOpen)) && second == Resting(old(screen.drawerOpen))
  {
    first := screen.ToggleDrawer();
    second := screen.ToggleDrawer();
  }

  /** Opening the drawer from the profile tab and then switching tabs
      leaves the drawer open over the new tab. */
  method EditThenSwitchTab(screen: NestedNavigationScreen, i: nat)
    requires i < |TabNames|
    requires screen.activeTab == "profile" && !screen.drawerOpen
    modifies screen
    ensures screen.drawerOpen && screen.activeTab == TabNames[i]
  {
    screen.PressEditProfileSettings();
    screen.PressTab(i);
  }
}
