# Shopping lists: view state of the client screens

This project models the client-side logic of a browser shopping-list manager. Each screen
reads two collections from a mock REST backend: the lists, or one list by id, plus the users.
It then joins them into its own view state and applies local edits to that state. The edits
(toggle, add, delete) are never written back.

The model has these parts:

- `Seqs`: JavaScript's `filter` and `find` as Dafny functions. It also defines
  "order-preserving subsequence" and proves that filtering produces one. It proves how
  filtering treats multiplicities, concatenation and a stronger predicate.
- `Text`: `trim` with the ECMAScript whitespace set, and `endsWith` / `includes`. It also
  covers the trailing `\d+` of a URL, `split("/").pop()` and `parseInt(…, 10)` on digits.
- `Entities`: the records (`Item`, `User`, `ShoppingList`) and `Response<T>`, the way one
  `fetch` settles: ok with a body, not ok, or rejected. It also has `SettleBoth`, which
  combines two reads awaited with `Promise.all` followed by the `ok` test.
- `Views`: the join rules and local edits shared by the screens, as pure functions with
  the lemmas about them. The join rules are the panel members, the detail owner and
  members, the overview filter and the panels' focus on list 1. The edits are toggle,
  remove by id and the appended list.
- `MockServer`: the fixtures and `mockFetch` as a pure classifier of a request. It returns
  a status with a payload, or a rejection.
- One module per component, each with a class that holds the component's state slices as
  fields. The handlers are methods: `AdminScreen.AdminPanel`, `UserScreen.UserPanel`,
  `OverviewScreen.ShoppingListOverview`, `DetailScreen.ShoppingListDetail`,
  `TileWidget.ShoppingListTile` and `UserForm.AddUserForm`. Each method's postcondition
  gives the new value of every field it may modify. Each new value is stated through the
  `Views` function whose properties are proved. `Screen()` gives the view the component
  renders, checked in order: loading, then error, then not found, then content.

Behaviour the model keeps as the code has it:

- The detail screen reads the list first and requests the users only after a good list
  read. A 404 therefore shows the load-error message, not the "not found" view: that view
  appears only when no list has been stored and no error is set.
- A users failure on the detail screen comes after the list has already been stored. The
  error view still wins.
- `handleAddList` accepts any name, including a blank one. Its id is `lists.length + 1`,
  which can equal an existing list's id after a deletion. `Views.AddedListIdCanCollide`
  shows such a case, where deleting the new id then removes two lists.
- A delete removes every record with the given id, and a toggle flips every item with the
  given id, not just one.
- The fetch handlers never clear an earlier error. The panels leave their slices untouched
  when list 1 is missing.
- A render tests its error slot with `if (error)`, so an empty message counts as no error.
  A read rejected with an empty message therefore leaves the panels and the overview
  showing their content. On the detail screen it can leave a stored list without an owner.
  The render then reads the name of the missing owner, which `DetailView.OwnerMissing`
  stands for.
- The id route accepts leading zeros: `…/lists/01` is answered as `…/lists/1` is.

## Model

| member | source | states |
|---|---|---|
| `Entities.SettleBoth` | client/src/components/ShoppingListOverview.js:56-61 | Both collections load only if both reads are ok, never one alone. A rejected read yields its own message (the lists read's message when both reject). Two settled reads with either not ok yield the screen's error text. |
| `Text.BlankIffAllWhitespace` | client/src/components/AddUserForm.js:10 | `x.trim() === ""` holds exactly when every character of `x` is ECMAScript whitespace or a line terminator. |
| `Text.DigitsValueOfDecimalString` | client/src/mockServer.js:88 | `parseInt` on the decimal notation of `n` gives `n` back. |
| `Text.LeadingZeroValue` | client/src/mockServer.js:88 | A leading zero does not change the value `parseInt` reads from a run of digits. |
| `Views.Members` | client/src/components/AdminPanel.js:80-82 | Panel members are the users whose id the list names. They keep user-collection order (a subsequence) and every copy of each such user. |
| `Views.OwnerOf` | client/src/components/ShoppingListTile.js:43 | The owner is the first user whose id equals the list's first member id. There is none exactly when the list has no member ids or no user has that id. |
| `Views.DetailOwner` | client/src/components/ShoppingListDetail.js:31-32 | The detail owner is the first user whose id is the list's first member id, as `OwnerOf` picks it. Otherwise it is the "Neznámý vlastník" stand-in, which happens exactly when the list names no ids or none matches. |
| `Views.MembersExceptOwner` | client/src/components/ShoppingListDetail.js:34-37 | Detail members are the listed users whose id differs from the first member id. They keep user-collection order and every copy of each such user. There are none when the list names no ids. |
| `Views.OwnerNotAmongMembers` | client/src/components/ShoppingListDetail.js:34-37 | No detail member has the owner's id. |
| `Views.DetailMembersWithinMembers` | client/src/components/ShoppingListDetail.js:34-37 | Detail members form a subsequence of the panel members for the same list and users. |
| `Views.Visible` | client/src/components/ShoppingListOverview.js:96-99 | `filteredLists` is a subsequence of `lists`. It holds exactly the lists that include the acting user and are not archived, unless archived lists are shown, and every copy of each. |
| `Views.ActiveWithinAll` | client/src/components/ShoppingListOverview.js:98 | The view without archived lists is a subsequence of the "show all" view. |
| `Views.NoArchivedMeansSameView` | client/src/components/ShoppingListOverview.js:96-99 | When no list is archived, both modes show the same lists. |
| `Views.FocusOn` | client/src/components/AdminPanel.js:63-84 | The panels report an error exactly when a read is not ok. Otherwise they focus the first list with the target id and join its members, or report that no such list exists. |
| `Views.ToggleCompleted` | client/src/components/AdminPanel.js:108-114 | The length, ids, names and order stay the same. `completed` flips exactly on the items whose id matches. |
| `Views.ToggleTwiceRestores` | client/src/components/AdminPanel.js:108-114 | Toggling the same id twice restores the original items. |
| `Views.ToggleAbsentIsIdentity` | client/src/components/UserPanel.js:88-94 | Toggling an id no item has leaves the items identical. |
| `Views.RemoveItem` | client/src/components/AdminPanel.js:104-106 | The result has no item with the id. It is a subsequence of the input and keeps every copy of every other item. |
| `Views.RemoveUser` | client/src/components/AdminPanel.js:126-128 | The same as `RemoveItem`, for members. |
| `Views.RemoveList` | client/src/components/ShoppingListOverview.js:91-94 | The same as `RemoveItem`, for lists. |
| `Views.RemoveAbsentItem` | client/src/components/UserPanel.js:96-98 | Deleting an id no item has changes nothing. |
| `Views.AddThenRemoveItem` | client/src/components/AdminPanel.js:95-106 | Adding an item under a fresh id and then deleting that id restores the items. |
| `Views.AddThenRemoveUser` | client/src/components/AdminPanel.js:116-128 | Adding a member under a fresh id and then deleting that id restores the members. |
| `Views.HasUserNamedIff` | client/src/components/AdminPanel.js:118 | The duplicate check finds a user exactly when some member has the exact, untrimmed name. |
| `Views.AddedListIsVisible` | client/src/components/ShoppingListOverview.js:78-99 | A list just added appears at the end of `filteredLists` in both archive modes. The lists shown before it are unchanged. |
| `Views.AddThenRemoveList` | client/src/components/ShoppingListOverview.js:78-94 | Adding a list and then deleting id `length + 1` restores the lists, provided no list already had that id. |
| `Views.AddedListIdCanCollide` | client/src/components/ShoppingListOverview.js:78-94 | The sequential id can repeat an existing one: with lists 1 and 3, the new list gets id 3, and deleting 3 removes both. |
| `MockServer.MatchesListIdIff` | client/src/mockServer.js:87 | The id-route test holds exactly when `/lists/` is followed by one or more digits up to the end of the URL. |
| `MockServer.RequestedListId` | client/src/mockServer.js:88 | The id parsed from the last path segment is the value of the URL's trailing digits. |
| `MockServer.ListByIdReply` | client/src/mockServer.js:88-102 | For any URL the id pattern accepts, the reply is 200 with fixture list `n` when 1 ≤ `n` ≤ 5, else 404 "List Not Found". Here `n` is the parsed id. |
| `MockServer.MockFetch` | client/src/mockServer.js:71-125 | Statuses are only 200, 404 and 204. A GET of `…/lists` or `…/users` returns the full fixture. A GET that the id pattern accepts gets the id branch's reply. A request whose URL contains `hot-update.json` and that no earlier branch takes, GET included, gets an empty 204, and only such a request gets a 204. A request rejects with "Unknown endpoint: <url>" exactly when it hits no branch, including a known path with a method other than GET or with no method. |
| `MockServer.ListsUrlNeverMatchesId` | client/src/mockServer.js:77-87 | A URL ending in `/lists` never reaches the id branch. |
| `MockServer.ListIdUrl` | client/src/mockServer.js:87-88 | `<prefix>/lists/<n>` matches only the id branch and asks for id `n`. |
| `MockServer.FindFixtureList` | client/src/mockServer.js:89 | The fixture has a list with id `n` exactly for 1 ≤ `n` ≤ 5, at position `n - 1`. |
| `MockServer.ListByIdRoute` | client/src/mockServer.js:87-102 | A GET of `<prefix>/lists/<n>` returns 200 with list `n` when it exists, else 404 "List Not Found". |
| `MockServer.SameIdSameReply` | client/src/mockServer.js:87-102 | Two GETs on the id route whose digits read as the same number get the same reply. |
| `MockServer.LeadingZeroRoute` | client/src/mockServer.js:87-102 | A GET of `<prefix>/lists/0<n>` gets the reply for id `n`: the leading zero is ignored. |
| `MockServer.HotUpdateRoute` | client/src/mockServer.js:115-117 | A request for a `….hot-update.json` URL is answered with an empty 204 whatever its method. |
| `MockServer.FixtureListIds` | client/src/mockServer.js:2-56 | The fixture has five lists whose ids run from 1 to 5 in order, so they are unique. |
| `MockServer.FixtureMembersExist` | client/src/mockServer.js:2-64 | Every fixture list names at least one member, and every member id is a fixture user's id. |
| `MockServer.FixtureItemIdsUnique` | client/src/mockServer.js:2-56 | Item ids are unique across all fixture lists. |
| `AdminScreen.AdminPanel.constructor` | client/src/components/AdminPanel.js:49-55 | At mount there is no list, no items, no members, empty fields, no error, and loading is on. |
| `AdminScreen.AdminPanel.FetchData` | client/src/components/AdminPanel.js:58-93 | A failed read sets only the error. The error view then shows exactly when the message is not empty. A missing list 1 changes nothing. List 1 sets the list, its items and its members. Loading ends in every outcome. |
| `AdminScreen.AdminPanel.EditItemName` | client/src/components/AdminPanel.js:208 | The item field takes the typed value. |
| `AdminScreen.AdminPanel.EditUserName` | client/src/components/AdminPanel.js:248 | The member field takes the typed value. |
| `AdminScreen.AdminPanel.HandleAddItem` | client/src/components/AdminPanel.js:95-102 | A blank name changes nothing. Otherwise the untrimmed name is appended as an incomplete item under the fresh id, and the field is cleared. |
| `AdminScreen.AdminPanel.HandleDeleteItem` | client/src/components/AdminPanel.js:104-106 | The items become `RemoveItem` of the old items. |
| `AdminScreen.AdminPanel.HandleToggleCompleted` | client/src/components/AdminPanel.js:108-114 | The items become `ToggleCompleted` of the old items. |
| `AdminScreen.AdminPanel.HandleAddUser` | client/src/components/AdminPanel.js:116-124 | A blank name changes nothing. An exact duplicate name only clears the field. Otherwise a user without email is appended and the field is cleared. |
| `AdminScreen.AdminPanel.HandleDeleteUser` | client/src/components/AdminPanel.js:126-128 | The members become `RemoveUser` of the old members. |
| `AdminScreen.FixtureFocus` | client/src/components/AdminPanel.js:75-83 | Against the fixtures, the panels show list 1 with the members Petr Novák and Jana Svobodová. |
| `AdminScreen.BreadScenario` | client/src/components/AdminPanel.js:75-83 | List 1 with one open item "Bread" and users Petr and Jana gives that item and both users as members. |
| `UserScreen.UserPanel.constructor` | client/src/components/UserPanel.js:45-49 | At mount there is no list, no items, no members, loading is on and there is no error. |
| `UserScreen.UserPanel.FetchData` | client/src/components/UserPanel.js:51-86 | This follows the admin screen's rule. In addition, a load without list 1 ends in the not-found view when no list was shown and no error was set before. |
| `UserScreen.UserPanel.HandleToggleCompleted` | client/src/components/UserPanel.js:88-94 | The items become `ToggleCompleted` of the old items. |
| `UserScreen.UserPanel.HandleDeleteItem` | client/src/components/UserPanel.js:96-98 | The items become `RemoveItem` of the old items. |
| `UserScreen.UserPanel.HandleLeaveList` | client/src/components/UserPanel.js:100-102 | No state changes. |
| `OverviewScreen.ShoppingListOverview.constructor` | client/src/components/ShoppingListOverview.js:36-42 | At mount the dialog is closed, the name is empty, archived lists are hidden, both collections are empty, loading is on and there is no error. |
| `OverviewScreen.ShoppingListOverview.FetchData` | client/src/components/ShoppingListOverview.js:52-76 | Both collections are replaced, or the error is set and they stay. After a read that is not ok, the error alert shows exactly when the message is not empty. Loading ends in every outcome. |
| `OverviewScreen.ShoppingListOverview.HandleAddList` | client/src/components/ShoppingListOverview.js:78-89 | One list is appended with id `length + 1`, the typed name, the acting user as its only member, no items and not archived. The name is cleared and the dialog closed. `filteredLists` gains exactly that list at its end. |
| `OverviewScreen.ShoppingListOverview.HandleDeleteList` | client/src/components/ShoppingListOverview.js:91-94 | The lists become `RemoveList` of the old lists. |
| `OverviewScreen.ShoppingListOverview.ConfirmTileDelete` | client/src/components/ShoppingListOverview.js:137-141 | A confirmed tile delete removes the tile's list id from the lists, so no shown list has it, and closes the tile's dialog. |
| `OverviewScreen.ShoppingListOverview.OpenListModal` | client/src/components/ShoppingListOverview.js:116 | The dialog opens. |
| `OverviewScreen.ShoppingListOverview.CloseListModal` | client/src/components/ShoppingListOverview.js:194 | The dialog closes. |
| `OverviewScreen.ShoppingListOverview.ToggleShowArchived` | client/src/components/ShoppingListOverview.js:121 | The archive mode flips. |
| `OverviewScreen.ShoppingListOverview.EditListName` | client/src/components/ShoppingListOverview.js:177 | The name field takes the typed value. |
| `OverviewScreen.ArchiveScenario` | client/src/components/ShoppingListOverview.js:96-99 | Take one archived and one active list of user 1. The default view shows only the active list, and "show all" shows both. |
| `DetailScreen.MembersSection` | client/src/components/ShoppingListDetail.js:71-81 | The "Žádní členové" empty state is chosen exactly when there are no members. Otherwise the members are listed. |
| `DetailScreen.ItemsSection` | client/src/components/ShoppingListDetail.js:89-107 | The "Žádné položky" empty state is chosen exactly when the list has no items. Otherwise the items are listed. |
| `DetailScreen.ShoppingListDetail.constructor` | client/src/components/ShoppingListDetail.js:7-11 | At mount there is no list, no owner and no members, loading is on, and there is no error. |
| `DetailScreen.ShoppingListDetail.FetchListDetail` | client/src/components/ShoppingListDetail.js:14-46 | A bad list read, 404 included, sets "Nepodařilo se načíst seznam" and never requests the users. A good one stores the list. A bad users read then sets "Nepodařilo se načíst uživatele". Otherwise the owner and members are derived. After a failure the error view shows exactly when the message is not empty. A users read rejected with an empty message on a first load reaches the render without an owner. |
| `DetailScreen.ShoppingListDetail.Screen` | client/src/components/ShoppingListDetail.js:49-62 | The view is chosen in order: spinner, error alert for a non-empty message, not found, then the page. In a state the handlers reach, the page lacks its owner only when the error message is empty. |
| `DetailScreen.NoMemberIds` | client/src/components/ShoppingListDetail.js:31-37 | A list with no member ids gets the unknown-owner stand-in and the empty members state. |
| `TileWidget.OwnerLabel` | client/src/components/ShoppingListTile.js:43 | The label is the name of the first user with the list's first member id, else "Unknown". |
| `TileWidget.ShoppingListTile.constructor` | client/src/components/ShoppingListTile.js:26-28 | A tile starts with its dialog closed. |
| `TileWidget.ShoppingListTile.HandleShow` | client/src/components/ShoppingListTile.js:35 | The confirmation dialog opens. |
| `TileWidget.ShoppingListTile.HandleClose` | client/src/components/ShoppingListTile.js:34 | The dialog closes, and nothing is deleted. |
| `TileWidget.ShoppingListTile.HandleConfirmDelete` | client/src/components/ShoppingListTile.js:37-40 | `onDelete` is called once with the list's id, and then the dialog closes. |
| `UserForm.FormCompleteIff` | client/src/components/AddUserForm.js:10 | Submission proceeds exactly when both name and email contain a character that is not whitespace. |
| `UserForm.AddUserForm.constructor` | client/src/components/AddUserForm.js:5-6 | Both fields start empty. |
| `UserForm.AddUserForm.EditName` | client/src/components/AddUserForm.js:37 | The name field takes the typed value. |
| `UserForm.AddUserForm.EditEmail` | client/src/components/AddUserForm.js:46 | The email field takes the typed value. |
| `UserForm.AddUserForm.HandleSubmit` | client/src/components/AddUserForm.js:8-23 | An incomplete form calls nothing and keeps both fields. A complete one hands over exactly one user with the untrimmed name and email and the fresh id, then clears both fields. |

## Left out

- Rendering is left out: JSX, theme styles and the translation tables. The panels' and the overview's error text (`t.error`, `t.failedToLoad`) is a parameter, `errorText`. `Screen()` gives only which view is chosen.
- Network access is left out: `fetch`, `Promise.all`, `async`/`await`, `Response` objects and `.json()` parsing. Each read is an input `Response<T>`. A body that fails to parse is not modelled; in the code it would reject with the parser's message.
- `SettleBoth`: when both reads reject, `Promise.all` rejects with whichever settles first. That depends on timing, so the model takes the lists read's message.
- Fresh ids are not generated: `Date.now()` in the admin handlers and `Math.random()` in the add-user form become a `freshId` parameter, and nothing claims they are unique. `Math.random()` yields a fraction, while the model's ids are integers.
- Ids are unbounded integers, so `parseInt`'s loss of precision above 2^53 is not modelled.
- Strings are sequences of Unicode scalar values rather than UTF-16 code units. The whitespace set that `trim` strips is the same.
- `alert` and `console` output are left out. `HandleLeaveList` and the form's alerts are modelled only by the state they do not change.
- Effect scheduling is left out: `useEffect` re-runs, unmounting while a read is pending, stale results after the detail route's id changes, and React's batching of state updates. Each handler runs to completion on the current state.
- Navigation is left out: `navigate` to the detail and panel routes, the detail's `useParams` id and the URL it builds. The list-by-id response is an input.
- The tile's item checkboxes are uncontrolled (`defaultChecked`) and hold no component state.
- `mockFetch`'s promise, `Response` headers, its logging and `enableMocking` (which installs it as `window.fetch`) are left out. The frozen deep copies of the fixtures equal the fixtures, so the model serves the fixtures directly.
- client/src/layout/Navbar.js, client/src/App.js and client/src/index.js are not part of this model.
