// The `toggleDrawer` shared, line for line, by
// app/navigation-example/drawer-navigation.tsx and
// app/navigation-example/nested-navigation.tsx: it starts an animation of
// the drawer's `Animated.Value` towards 0 (closing) or 1 (opening) and
// then flips the open flag. Only the discrete target of the animation is
// modelled.

module DrawerAnimation {

  /** The `toValue` of the animation `toggleDrawer` starts from a drawer
      that is open (`drawerOpen`) or closed. */
  function ToggleTarget(drawerOpen: bool): (t: int)
    ensures t == 0 || t == 1
    ensures t == 1 <==> !drawerOpen
  {
    if drawerOpen then 0 else 1
  }

  /** The resting value that matches an open flag. */
  function Resting(drawerOpen: bool): (t: int)
    ensures t == 1 <==> drawerOpen
    ensures t == 0 || t == 1
  {
    if drawerOpen then 1 else 0
  }

  /** After a toggle the animation heads for the resting value of the new
      flag, and the target of a toggle is the resting value the drawer
      had before the opposite toggle. */
  lemma ToggleTargetIsNewResting(drawerOpen: bool)
    ensures ToggleTarget(drawerOpen) == Resting(!drawerOpen)
    ensures ToggleTarget(!drawerOpen) == Resting(drawerOpen)
  {
  }
}
