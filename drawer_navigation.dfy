// app/navigation-example/drawer-navigation.tsx: a side drawer listing four
// screens, a `currentScreen` name, a `drawerOpen` flag and the animation
// that slides the drawer in and out.

module DrawerNavigation {
  import opened Options
  import opened DrawerAnimation

  /** The screen names the drawer items pass to `navigateToScreen`, in the
      order the items are listed. */
  const DrawerScreens: seq<string> := ["profile", "settings", "privacy", "help"]

  /** The four content panels of `renderScreenContent`. */
  datatype Content = ProfileContent | SettingsContent | PrivacyContent | HelpContent

  /** The drawer item, by index into `DrawerScreens`, whose panel this is. */
  function ContentIndex(c: Content): (i: nat)
    ensures i < |DrawerScreens|
  {
    match c
    case ProfileContent => 0
    case SettingsContent => 1
    case PrivacyContent => 2
    case HelpContent => 3
  }

  /** `renderScreenContent`: the panel of the named screen, and `null` for
      a name that is not one of the four. */
  function RenderScreenContent(currentScreen: string): (c: Option<Content>)
    ensures c.Some? <==> currentScreen in DrawerScreens
    ensures c.Some? ==> DrawerScreens[ContentIndex(c.value)] == currentScreen
  {
    if currentScreen == DrawerScreens[0] then Some(ProfileContent)
    else if currentScreen == DrawerScreens[1] then Some(SettingsContent)
    else if currentScreen == DrawerScreens[2] then Some(PrivacyContent)
    else if currentScreen == DrawerScreens[3] then Some(HelpContent)
    else None
  }

  /** The drawer items: whether each is drawn highlighted. */
  function DrawerHighlights(currentScreen: string): (h: seq<bool>)
    ensures |h| == |DrawerScreens|
    ensures forall i :: 0 <= i < |h| ==> (h[i] <==> DrawerScreens[i] == currentScreen)
  {
    seq(|DrawerScreens|, i requires 0 <= i < |DrawerScreens| => DrawerScreens[i] == currentScreen)
  }

  /** On a known screen exactly one item is highlighted, the one whose
      panel is shown. */
  lemma HighlightMatchesContent(currentScreen: string, i: int)
    requires currentScreen in DrawerScreens && 0 <= i < |DrawerScreens|
    ensures RenderScreenContent(currentScreen).Some?
    ensures DrawerHighlights(currentScreen)[i] <==> i == ContentIndex(RenderScreenContent(currentScreen).value)
  {
    var k := ContentIndex(RenderScreenContent(currentScreen).value);
    assert DrawerScreens[k] == currentScreen;
    assert DrawerScreens[i] == currentScreen ==> i == k by {
      assert DrawerScreens[0] != DrawerScreens[1] && DrawerScreens[0] != DrawerScreens[2];
      assert DrawerScreens[0] != DrawerScreens[3] && DrawerScreens[1] != DrawerScreens[2];
      assert DrawerScreens[1] != DrawerScreens[3] && DrawerScreens[2] != DrawerScreens[3];
    }
  }

  class DrawerNavigationScreen {
    var drawerOpen: bool
    var currentScreen: string
    /** The value the drawer's animation last headed for. */
    var animationTarget: int

    /** The animation heads for the resting value of the flag, and the
        screen is one the drawer lists. */
    predicate Valid()
      reads this
    {
      animationTarget == Resting(drawerOpen) && currentScreen in DrawerScreens
    }

    constructor ()
      ensures !drawerOpen && currentScreen == "profile" && animationTarget == 0
      ensures Valid()
    {
      drawerOpen := false;
      currentScreen := "profile";
      animationTarget := 0;
    }

    /** `toggleDrawer`, also the header's menu button: the animation heads
        for 1 when opening and 0 when closing, and the flag flips. */
    method ToggleDrawer() returns (target: int)
      modifies this`drawerOpen, this`animationTarget
      ensures target == (if old(drawerOpen) then 0 else 1)
      ensures animationTarget == target && drawerOpen == !old(drawerOpen)
      ensures animationTarget == Resting(drawerOpen)
    {
      target := ToggleTarget(drawerOpen);
      animationTarget := target;
      drawerOpen := !drawerOpen;
    }

    /** `navigateToScreen`: select the screen, then toggle; a drawer that
        is somehow closed is opened rather than kept closed. */
    method NavigateToScreen(screen: string)
      modifies this`currentScreen, this`drawerOpen, this`animationTarget
      ensures currentScreen == screen
      ensures drawerOpen == !old(drawerOpen) && animationTarget == Resting(drawerOpen)
    {
      currentScreen := screen;
      var _ := ToggleDrawer();
    }

    /** A press on drawer item `i`. */
    method PressDrawerItem(i: nat)
      requires i < |DrawerScreens|
      modifies this`currentScreen, this`drawerOpen, this`animationTarget
      ensures currentScreen == DrawerScreens[i]
      ensures drawerOpen == !old(drawerOpen)
      ensures old(Valid()) ==> Valid()
    {
      NavigateToScreen(DrawerScreens[i]);
    }

    /** The overlay is rendered exactly while the drawer is open. */
    predicate OverlayShown()
      reads this
    {
      drawerOpen
    }

    /** A press on the overlay toggles, which closes the drawer; with the
        drawer closed there is no overlay to press. */
    method PressOverlay()
      modifies this`drawerOpen, this`animationTarget
      ensures old(OverlayShown()) ==> !drawerOpen && animationTarget == 0
      ensures !old(OverlayShown()) ==> drawerOpen == old(drawerOpen) && animationTarget == old(animationTarget)
      ensures currentScreen == old(currentScreen)
    {
      if OverlayShown() {
        var _ := ToggleDrawer();
      }
    }
  }

  /** Two toggles restore the flag and leave the screen alone; the second
      animation heads for the value that matches the original flag. */
  method ToggleTwice(screen: DrawerNavigationScreen) returns (first: int, second: int)
    modifies screen
    ensures screen.drawerOpen == old(screen.drawerOpen)
    ensures screen.currentScreen == old(screen.currentScreen)
    ensures first == Resting(!old(screen.drawerOpen)) && second == Resting(old(screen.drawerOpen))
    ensures screen.animationTarget == second
  {
    first := screen.ToggleDrawer();
    second := screen.ToggleDrawer();
  }
}
