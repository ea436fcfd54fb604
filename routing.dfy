/** Navigation decisions: which root stack is mounted (src/routes/index.tsx),
    which screens the app stack registers (src/routes/AppStack.tsx) and the
    guard on the User tab (src/routes/AppTabs.tsx). */
module Routing {
  import opened Base
  import opened Session
  import opened Roles

  datatype Root = AppStack | AuthStack
  datatype StackScreen = TabsScreen | AdminScreen
  datatype Tab = HomeTab | ActivitiesTab | UserTab

  const InitialTab := HomeTab
  const LoginRoute := "Login"

  /** `Routes`: `user ? <AppStack/> : <AuthStack/>`. Only the presence of a
      user is consulted: not its role, and not the `signed` flag. */
  function RootFor(user: Option<User>): (r: Root)
    ensures r == AppStack <==> user.Some?
  {
    if user.Some? then AppStack else AuthStack
  }

  /** The choice of root ignores the role. */
  lemma RootIgnoresRole(u: User, role: Option<string>)
    ensures RootFor(Some(u)) == RootFor(Some(u.(role := role))) == AppStack
  {
  }

  /** The screens `AppStack` registers: Tabs always and first, Admin exactly
      when the navigator's admin check passes. */
  function StackScreens(user: Option<User>): (r: seq<StackScreen>)
    ensures |r| >= 1 && r[0] == TabsScreen
    ensures AdminScreen in r <==> StackIsAdmin(RoleOf(user))
    ensures |r| <= 2
  {
    [TabsScreen] + (if StackIsAdmin(RoleOf(user)) then [AdminScreen] else [])
  }

  /** What the `tabPress` listener does: whether the switch is prevented and
      where it navigates instead. */
  datatype TabPress = TabPress(prevented: bool, navigateTo: Option<string>)

  /** Only the User tab has a listener; it redirects to Login when there is
      no user, and lets the press through otherwise. */
  function OnTabPress(tab: Tab, user: Option<User>): (r: TabPress)
    ensures r.prevented <==> tab == UserTab && user.None?
    ensures r.prevented ==> r.navigateTo == Some(LoginRoute)
    ensures !r.prevented ==> r.navigateTo == None
  {
    if tab == UserTab && user.None? then TabPress(true, Some(LoginRoute)) else TabPress(false, None)
  }
}
