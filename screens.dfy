// Screen and tab identifiers, and the top-level render dispatch on the current screen.

module Screens {

  const WelcomeScreen: string := "welcome"
  const AuthScreen: string := "auth"
  const ProfileScreen: string := "profile"
  const GamesScreen: string := "games"
  const HomeScreen: string := "home"

  /** The five screen names the navigation handlers ever store. */
  predicate IsScreenName(s: string)
  {
    s == WelcomeScreen || s == AuthScreen || s == ProfileScreen || s == GamesScreen || s == HomeScreen
  }

  /** The five keys of the home screen's bottom tab bar. */
  const TabKeys: seq<string> := ["home", "discover", "create", "messages", "profile"]

  predicate IsTabKey(t: string)
  {
    t in TabKeys
  }

  /** The screen component the app draws. */
  datatype View = WelcomeView | AuthView | ProfileView | GameSelectionView | HomeView

  /** The screen name whose `case` draws each view. */
  function ViewName(v: View): (r: string)
    ensures IsScreenName(r)
  {
    match v
    case WelcomeView => WelcomeScreen
    case AuthView => AuthScreen
    case ProfileView => ProfileScreen
    case GameSelectionView => GamesScreen
    case HomeView => HomeScreen
  }

  /** The `switch (currentScreen)`: one view per known name, Welcome for anything else. */
  function Render(screen: string): (v: View)
    ensures IsScreenName(screen) ==> ViewName(v) == screen
    ensures !IsScreenName(screen) ==> v == WelcomeView
  {
    if screen == WelcomeScreen then WelcomeView
    else if screen == AuthScreen then AuthView
    else if screen == ProfileScreen then ProfileView
    else if screen == GamesScreen then GameSelectionView
    else if screen == HomeScreen then HomeView
    else WelcomeView
  }

  /** Every view is drawn from its own name, so distinct known names draw distinct views. */
  lemma RenderViewName(v: View)
    ensures Render(ViewName(v)) == v
  {
  }
}
