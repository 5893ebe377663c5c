# Ludus onboarding controller, in Dafny

Ludus is a mobile prototype for a board-game social app. Its single component, `App`,
walks a new user through a linear onboarding flow: welcome, account creation (email and
password), profile (name and age), favourite-game selection from a fixed catalog of twelve
games, and finally a home screen with five bottom tabs. Everything lives in memory.

This project models the state and event handlers of that component, not its layout:

- `sequences.dfy` (module `Sequences`): the order-preserving sublist relation shared by
  the search filter and the removal of a favourite.
- `text.dfy` (module `Text`): the two string operations the game search relies on,
  `toLowerCase` (ASCII letters only) and `includes` (substring test), with `Includes`
  proved equal to "the needle occurs at some index".
- `catalog.dfy` (module `Catalog`): the twelve-entry `BOARD_GAMES` catalog and the
  search filter, proved to be an order-preserving subsequence of the catalog holding
  exactly the games whose lower-cased name includes the lower-cased query.
- `favorites.dfy` (module `Favorites`): the list computation inside
  `toggleGameSelection` (remove the id when present, otherwise append it) and its
  membership, no-duplicates and double-toggle properties.
- `screens.dfy` (module `Screens`): the five screen names, the five tab keys and the
  top-level render `switch`, which falls back to the Welcome screen for any other name.
- `app.dfy` (module `App`): class `Controller` with the four `useState` fields
  (`currentScreen`, `userInfo`, `searchQuery`, `activeTab`) and one method per event
  handler. Each method states the whole new state. The invariant `Valid()` says that the
  screen and the tab are always one of their five names and that the favourites are
  distinct catalog ids; every handler preserves it. `Alert.alert` is modelled as the
  handler's boolean result `alerted`. Two walkthrough methods drive the controller through
  a full onboarding and a few selections, checking what the contracts let a caller conclude.

Screens and tabs are kept as strings, as in the source, so that the render `switch`'s
`default` branch has something to model.

## Model

| member | source | states |
|---|---|---|
| App.Controller.constructor | App.js:36-45 | starts on `welcome`, every draft string empty, no favourites, empty search, tab `home`; the invariant holds |
| App.Controller.GetStarted | App.js:67 | always moves to `auth`; draft, search and tab unchanged |
| App.Controller.AuthNext | App.js:106-112 | moves to `profile` exactly when email and password are both non-empty; otherwise raises the notice and leaves the screen and everything else unchanged |
| App.Controller.ProfileNext | App.js:150-156 | moves to `games` exactly when name and age are both non-empty; otherwise raises the notice and leaves everything unchanged |
| App.Controller.ContinueToHome | App.js:223-225 | always moves to `home`, whatever the number of selected games |
| App.Controller.EditEmail | App.js:90 | replaces the email only; every other field unchanged |
| App.Controller.EditPassword | App.js:99 | replaces the password only |
| App.Controller.EditName | App.js:136 | replaces the name only |
| App.Controller.EditAge | App.js:143 | replaces the age only |
| App.Controller.EditSearch | App.js:189-194 | replaces the search text only |
| App.Controller.ToggleGameSelection | App.js:171-178 | the tapped id's membership flips, every other id's membership is kept, the list stays duplicate-free and within the catalog ids, nothing outside the favourites changes |
| App.Controller.SelectTab | App.js:289-300 | replaces the active tab only; screen and draft unchanged |
| App.Controller.CurrentView | App.js:316-329 | in a valid state the drawn view is the one named by the current screen |
| App.Controller.ListedGames | App.js:167-169 | the listed games keep catalog order and are exactly the catalog entries matching the current search |
| Screens.Render | App.js:316-329 | each of the five screen names draws its own view; any other string draws Welcome |
| Screens.ViewName | App.js:316-329 | every view is named by one of the five screen names |
| Screens.RenderViewName | App.js:316-329 | rendering a view's name gives back that view |
| Catalog.BoardGames | App.js:20-33 | twelve entries whose ids are 1..12 in order |
| Catalog.GameIdRange | App.js:20-33 | an id belongs to the catalog exactly when it lies in 1..12 |
| Catalog.FilterGames | App.js:167-169 | the filtered list is a subsequence of the input (order kept) and holds exactly the entries whose lower-cased name includes the lower-cased query |
| Catalog.Matches | App.js:168 | a game matches exactly when its lower-cased name contains the lower-cased query at some position |
| Catalog.FilterCounts | App.js:167-169 | the filter keeps every matching entry as many times as it occurs and drops every non-matching one |
| Catalog.FilteredGames | App.js:167-169 | the same, over the twelve-entry catalog |
| Catalog.FilterKeepsAll | App.js:167-169 | when every entry matches, filtering returns the list unchanged |
| Catalog.EmptyQueryListsAll | App.js:167-169 | an empty search lists all twelve games in catalog order |
| Catalog.FilterCaseInsensitive | App.js:168 | two queries equal after lower-casing list the same games |
| Catalog.AzQueryListsAzul | App.js:20-33 | searching "az" lists exactly Azul |
| Text.Lower | App.js:168 | lower-casing keeps the length, maps each character through ASCII lower-casing and leaves no upper-case ASCII letter |
| Text.LowerIdempotent | App.js:168 | lower-casing twice equals lower-casing once |
| Text.Includes | App.js:168 | `includes` holds exactly when the needle occurs at some index of the haystack |
| Text.IncludesEmpty | App.js:168 | every string includes the empty string |
| Favorites.Without | App.js:174 | removal keeps the other ids in their original order, each with its multiplicity, and drops every copy of the removed one |
| Favorites.Toggled | App.js:172-175 | a present id is removed, the rest kept in order with their multiplicities; an absent id is appended after the unchanged list |
| Favorites.WithoutAbsent | App.js:174 | removing an id that is not listed leaves the list unchanged |
| Favorites.WithoutKeepsNoDuplicates | App.js:174 | removal keeps a duplicate-free list duplicate-free |
| Favorites.ToggleFlipsMembership | App.js:171-178 | toggling flips the tapped id's membership and no other id's |
| Favorites.ToggleKeepsNoDuplicates | App.js:171-178 | toggling keeps the list duplicate-free |
| Favorites.ToggleAbsentAppends | App.js:175 | toggling an absent id appends it at the end |
| Favorites.ToggleTwiceAbsent | App.js:171-178 | toggling an absent id twice restores the exact original list |
| Favorites.ToggleTwicePresent | App.js:171-178 | toggling a present id twice moves it to the end: same members, and the same multiset when the list had no duplicates |
| Favorites.ToggleStaysWithin | App.js:198-208 | toggling with an id from a set keeps every listed id within that set |

## Left out

- Everything the component draws: the JSX views, their text and emoji, `StatusBar`,
  `SafeAreaView`, the tab panels and the profile tab's read-only summary (App.js:48-313).
- The `StyleSheet` block and the card width computed from the window size, which is
  layout and floating point (App.js:17, App.js:332-568).
- `Alert.alert` itself: the handlers return `alerted` instead of showing a dialog.
- The `disabled` prop of the two "Next" buttons. In the running app it keeps the handlers'
  else-branches from being reached; the model follows the handlers as written, so the
  error branch is modelled.
- The unused `expo-location` import.
- Text.Lower: lower-cases ASCII letters only; JavaScript's `toLowerCase` also folds
  non-ASCII letters. The twelve catalog names are pure ASCII, but a typed query need not
  be: JavaScript folds U+212A KELVIN SIGN to `k`, so the query "\u212Aing" lists King of
  Tokyo in the app and nothing in this model.
- React's re-rendering and hook scheduling: each handler is modelled as one atomic update
  of the controller's fields.
- App.Controller.ToggleGameSelection: requires a catalog id, because its only caller is
  the `onPress` of a card drawn from the filtered catalog (App.js:198-208).
- App.Controller.SelectTab: requires one of the five tab keys, because its only caller is
  the `onPress` of an entry of the fixed tab list (App.js:290-300).

The handlers do not look at `currentScreen` before acting (App.js:67, 106-112, 150-156,
225), so neither do the methods: each button's handler is reachable only while its screen
is drawn, but the model states what the handler does in any state. The favourites are a
list, not a set: toggling a present id twice restores the members but moves that id to
the end, which `Favorites.ToggleTwicePresent` states.
