// The App component's state and event handlers: onboarding navigation, form edits,
// the favourite-game toggle, the search box and the bottom tab bar.

module App {
  import opened Screens
  import Catalog
  import Favorites
  import Sequences

  /** The user draft collected during onboarding. */
  datatype UserInfo = UserInfo(email: string, password: string, name: string, age: string,
                               favoriteGames: seq<int>)

  /** The draft the app starts with: every field empty. */
  function EmptyUserInfo(): UserInfo
  {
    UserInfo("", "", "", "", [])
  }

  /** The guard of the Auth screen's "Next" button (a JavaScript string is truthy when non-empty). */
  predicate AuthComplete(u: UserInfo)
  {
    u.email != "" && u.password != ""
  }

  /** The guard of the Profile screen's "Next" button. */
  predicate ProfileComplete(u: UserInfo)
  {
    u.name != "" && u.age != ""
  }

  class Controller {
    var currentScreen: string
    var userInfo: UserInfo
    var searchQuery: string
    var activeTab: string

    /** Screen and tab hold one of their five names; the favourites are distinct catalog ids. */
    ghost predicate Valid()
      reads this
    {
      IsScreenName(currentScreen) && IsTabKey(activeTab) &&
      Favorites.NoDuplicates(userInfo.favoriteGames) &&
      forall id :: id in userInfo.favoriteGames ==> Catalog.IsGameId(id)
    }

    /** The initial `useState` values. */
    constructor ()
      ensures Valid()
      ensures currentScreen == WelcomeScreen && userInfo == EmptyUserInfo()
      ensures searchQuery == "" && activeTab == "home"
    {
      currentScreen := WelcomeScreen;
      userInfo := EmptyUserInfo();
      searchQuery := "";
      activeTab := "home";
    }

    /** The view the top-level `switch` draws for the current screen. */
    function CurrentView(): (v: View)
      reads this
      requires Valid()
      ensures ViewName(v) == currentScreen
    {
      Render(currentScreen)
    }

    /** The games listed on the selection screen for the current search text. */
    function ListedGames(): (r: seq<Catalog.Game>)
      reads this
      ensures Sequences.IsSubsequence(r, Catalog.BoardGames())
      ensures forall g :: g in r <==> g in Catalog.BoardGames() && Catalog.Matches(g, searchQuery)
    {
      Catalog.FilteredGames(searchQuery)
    }

    /** Welcome's "Get Started": go to the Auth screen, unconditionally. */
    method GetStarted()
      requires Valid()
      modifies this
      ensures Valid()
      ensures currentScreen == AuthScreen
      ensures userInfo == old(userInfo) && searchQuery == old(searchQuery) && activeTab == old(activeTab)
    {
      currentScreen := AuthScreen;
    }

    /** Auth's "Next": to Profile when email and password are filled in, otherwise an
        error notice (`alerted`) and nothing changes. */
    method AuthNext() returns (alerted: bool)
      requires Valid()
      modifies this
      ensures Valid()
      ensures alerted <==> !AuthComplete(old(userInfo))
      ensures currentScreen == if alerted then old(currentScreen) else ProfileScreen
      ensures userInfo == old(userInfo) && searchQuery == old(searchQuery) && activeTab == old(activeTab)
    {
      if userInfo.email != "" && userInfo.password != "" {
        currentScreen := ProfileScreen;
        alerted := false;
      } else {
        alerted := true;
      }
    }

    /** Profile's "Next": to game selection when name and age are filled in, otherwise an
        error notice and nothing changes. */
    method ProfileNext() returns (alerted: bool)
      requires Valid()
      modifies this
      ensures Valid()
      ensures alerted <==> !ProfileComplete(old(userInfo))
      ensures currentScreen == if alerted then old(currentScreen) else GamesScreen
      ensures userInfo == old(userInfo) && searchQuery == old(searchQuery) && activeTab == old(activeTab)
    {
      if userInfo.name != "" && userInfo.age != "" {
        currentScreen := GamesScreen;
        alerted := false;
      } else {
        alerted := true;
      }
    }

    /** Game selection's "Continue" / "Skip for now": go Home whatever was selected. */
    method ContinueToHome()
      requires Valid()
      modifies this
      ensures Valid()
      ensures currentScreen == HomeScreen
      ensures userInfo == old(userInfo) && searchQuery == old(searchQuery) && activeTab == old(activeTab)
    {
      currentScreen := HomeScreen;
    }

    /** The email text field. */
    method EditEmail(text: string)
      requires Valid()
      modifies this
      ensures Valid()
      ensures userInfo == old(userInfo).(email := text)
      ensures currentScreen == old(currentScreen) && searchQuery == old(searchQuery) && activeTab == old(activeTab)
    {
      userInfo := userInfo.(email := text);
    }

    /** The password text field. */
    method EditPassword(text: string)
      requires Valid()
      modifies this
      ensures Valid()
      ensures userInfo == old(userInfo).(password := text)
      ensures currentScreen == old(currentScreen) && searchQuery == old(searchQuery) && activeTab == old(activeTab)
    {
      userInfo := userInfo.(password := text);
    }

    /** The name text field. */
    method EditName(text: string)
      requires Valid()
      modifies this
      ensures Valid()
      ensures userInfo == old(userInfo).(name := text)
      ensures currentScreen == old(currentScreen) && searchQuery == old(searchQuery) && activeTab == old(activeTab)
    {
      userInfo := userInfo.(name := text);
    }

    /** The age text field (free text, not checked to be a number). */
    method EditAge(text: string)
      requires Valid()
      modifies this
      ensures Valid()
      ensures userInfo == old(userInfo).(age := text)
      ensures currentScreen == old(currentScreen) && searchQuery == old(searchQuery) && activeTab == old(activeTab)
    {
      userInfo := userInfo.(age := text);
    }

    /** The search box on the game-selection screen. */
    method EditSearch(text: string)
      requires Valid()
      modifies this
      ensures Valid()
      ensures searchQuery == text
      ensures currentScreen == old(currentScreen) && userInfo == old(userInfo) && activeTab == old(activeTab)
    {
      searchQuery := text;
    }

    /** Tapping a game card. Cards are drawn only for catalog entries, so `gameId` is a
        catalog id. The tapped id's membership flips; every other id keeps its membership. */
    method ToggleGameSelection(gameId: int)
      requires Valid()
      requires Catalog.IsGameId(gameId)
      modifies this
      ensures Valid()
      ensures userInfo == old(userInfo).(favoriteGames := Favorites.Toggled(old(userInfo.favoriteGames), gameId))
      ensures gameId in userInfo.favoriteGames <==> gameId !in old(userInfo.favoriteGames)
      ensures forall id :: id != gameId ==> (id in userInfo.favoriteGames <==> id in old(userInfo.favoriteGames))
      ensures currentScreen == old(currentScreen) && searchQuery == old(searchQuery) && activeTab == old(activeTab)
    {
      var isSelected := gameId in userInfo.favoriteGames;
      var updatedGames := if isSelected then Favorites.Without(userInfo.favoriteGames, gameId)
                          else userInfo.favoriteGames + [gameId];
      Favorites.ToggleKeepsNoDuplicates(userInfo.favoriteGames, gameId);
      Favorites.ToggleFlipsMembership(userInfo.favoriteGames, gameId);
      userInfo := userInfo.(favoriteGames := updatedGames);
    }

    /** A bottom-tab press: the tab bar offers exactly the five keys. */
    method SelectTab(key: string)
      requires Valid()
      requires IsTabKey(key)
      modifies this
      ensures Valid()
      ensures activeTab == key
      ensures currentScreen == old(currentScreen) && userInfo == old(userInfo) && searchQuery == old(searchQuery)
    {
      activeTab := key;
    }
  }

  /** One pass through the onboarding forms, as the app's buttons drive it. */
  method OnboardingWalkthrough()
  {
    var app := new Controller();
    assert app.CurrentView() == WelcomeView;
    app.GetStarted();
    var alerted := app.AuthNext();
    assert alerted && app.currentScreen == AuthScreen;
    app.EditEmail("a@b.com");
    app.EditPassword("secret");
    alerted := app.AuthNext();
    assert !alerted && app.CurrentView() == ProfileView;
    app.EditName("Ada");
    alerted := app.ProfileNext();
    assert alerted && app.currentScreen == ProfileScreen;
    app.EditAge("30");
    alerted := app.ProfileNext();
    assert !alerted && app.CurrentView() == GameSelectionView;
    app.ContinueToHome();
    app.SelectTab("profile");
    assert app.CurrentView() == HomeView && app.activeTab == "profile";
    assert app.userInfo.email == "a@b.com" && app.userInfo.age == "30";
  }

  /** Picking three games and dropping one of them again. */
  method SelectionWalkthrough()
  {
    var app := new Controller();
    Catalog.GameIdRange(1);
    Catalog.GameIdRange(3);
    Catalog.GameIdRange(7);
    app.ToggleGameSelection(1);
    assert app.userInfo.favoriteGames == [1];
    app.ToggleGameSelection(3);
    assert app.userInfo.favoriteGames == [1, 3];
    app.ToggleGameSelection(7);
    assert app.userInfo.favoriteGames == [1, 3, 7];
    app.ToggleGameSelection(3);
    assert 3 !in app.userInfo.favoriteGames && 1 in app.userInfo.favoriteGames;
  }
}
