/** The admin screen: it reads both collections, focuses list 1, and lets the user add,
    toggle and delete items and add and delete members, all on its local copies. */
module AdminScreen {
  import opened Seqs
  import opened Text
  import opened Entities
  import opened Views
  import opened MockServer

  /** The list the admin screen always edits. */
  const TargetListId: int := 1

  class AdminPanel {
    var currentList: Option<ShoppingList>
    var items: seq<Item>
    var users: seq<User>
    var newItemName: string
    var newUserName: string
    var error: Option<string>
    var loading: bool

    /** The state on mount, before `fetchData` settles. */
    constructor ()
      ensures currentList == None && items == [] && users == []
      ensures newItemName == "" && newUserName == ""
      ensures error == None && loading
    {
      currentList := None;
      items := [];
      users := [];
      newItemName := "";
      newUserName := "";
      error := None;
      loading := true;
    }

    function Screen(): (v: PanelScreen)
      reads this
    {
      if loading then Loading
      else if ErrorIsSet(error) then ErrorShown(error.value)
      else if currentList.None? then ListNotFound
      else ShowingList(items, users)
    }

    /** `fetchData` once both reads have settled. A failure sets only the error; a missing list
        sets nothing; the target list replaces the list, its items and the members. Loading
        ends in every case, and an earlier error is never cleared. */
    method FetchData(listsRes: Response<seq<ShoppingList>>, usersRes: Response<seq<User>>, errorText: string)
      modifies this`currentList, this`items, this`users, this`error, this`loading
      ensures !loading
      ensures FocusOn(listsRes, usersRes, TargetListId, errorText).FocusError? ==>
                error == Some(SettleBoth(listsRes, usersRes, errorText).message) &&
                currentList == old(currentList) && items == old(items) && users == old(users)
      ensures FocusOn(listsRes, usersRes, TargetListId, errorText).NoTargetList? ==>
                error == old(error) && currentList == old(currentList) && items == old(items) && users == old(users)
      ensures FocusOn(listsRes, usersRes, TargetListId, errorText).Focused? ==>
                var f := FocusOn(listsRes, usersRes, TargetListId, errorText);
                error == old(error) && currentList == Some(f.list) && items == f.list.items && users == f.members
      ensures !(listsRes.Ok? && usersRes.Ok?) ==>
                (Screen().ErrorShown? <==> SettleBoth(listsRes, usersRes, errorText).message != "")
    {
      loading := true;
      match FocusOn(listsRes, usersRes, TargetListId, errorText) {
        case FocusError(m) =>
          error := Some(m);
        case NoTargetList =>
        case Focused(l, ms) =>
          currentList := Some(l);
          items := l.items;
          users := ms;
      }
      loading := false;
    }

    /** The item name field's `onChange`. */
    method EditItemName(value: string)
      modifies this`newItemName
      ensures newItemName == value
    {
      newItemName := value;
    }

    /** The member name field's `onChange`. */
    method EditUserName(value: string)
      modifies this`newUserName
      ensures newUserName == value
    {
      newUserName := value;
    }

    /** `handleAddItem`: a blank name is ignored; otherwise the untrimmed name is appended as an
        incomplete item under the supplied fresh id and the field is cleared. */
    method HandleAddItem(freshId: int)
      modifies this`items, this`newItemName
      ensures IsBlank(old(newItemName)) ==> items == old(items) && newItemName == old(newItemName)
      ensures !IsBlank(old(newItemName)) ==>
                items == old(items) + [Item(freshId, old(newItemName), false)] && newItemName == ""
    {
      if IsBlank(newItemName) {
        return;
      }
      items := items + [Item(freshId, newItemName, false)];
      newItemName := "";
    }

    /** `handleDeleteItem`. */
    method HandleDeleteItem(id: int)
      modifies this`items
      ensures items == RemoveItem(old(items), id)
    {
      items := RemoveItem(items, id);
    }

    /** `handleToggleCompleted`. */
    method HandleToggleCompleted(id: int)
      modifies this`items
      ensures items == ToggleCompleted(old(items), id)
    {
      items := ToggleCompleted(items, id);
    }

    /** `handleAddUser`: a blank name is ignored; a name some member already has exactly clears
        the field and adds nothing; otherwise a user without email is appended and the field cleared. */
    method HandleAddUser(freshId: int)
      modifies this`users, this`newUserName
      ensures IsBlank(old(newUserName)) ==> users == old(users) && newUserName == old(newUserName)
      ensures !IsBlank(old(newUserName)) ==> newUserName == ""
      ensures !IsBlank(old(newUserName)) && HasUserNamed(old(users), old(newUserName)) ==> users == old(users)
      ensures !IsBlank(old(newUserName)) && !HasUserNamed(old(users), old(newUserName)) ==>
                users == old(users) + [User(freshId, old(newUserName), None)]
    {
      if IsBlank(newUserName) {
        return;
      }
      var existing := Find(UserNamed(newUserName), users);
      if existing.None? {
        users := users + [User(freshId, newUserName, None)];
      }
      newUserName := "";
    }

    /** `handleDeleteUser`. */
    method HandleDeleteUser(id: int)
      modifies this`users
      ensures users == RemoveUser(old(users), id)
    {
      users := RemoveUser(users, id);
    }
  }

  /** Against the fixture backend, the admin screen edits list 1 with members Petr and Jana. */
  lemma FixtureFocus(errorText: string)
    ensures FocusOn(Ok(MockLists), Ok(MockUsers), TargetListId, errorText) ==
            Focused(MockLists[0], [MockUsers[0], MockUsers[1]])
  {
    FindFixtureList(TargetListId);
    FixtureListOneMembers();
  }

  /** List 1 of the fixture names users 1 and 2, the first two fixture users. */
  lemma FixtureListOneMembers()
    ensures Members(MockUsers, MockLists[0].users) == [MockUsers[0], MockUsers[1]]
  {
    var front, back := [MockUsers[0], MockUsers[1]], [MockUsers[2], MockUsers[3]];
    assert MockUsers == front + back;
    FilterAppend(ListedIn([1, 2]), front, back);
    FilterKeepsAll(ListedIn([1, 2]), front);
    FilterKeepsNone(ListedIn([1, 2]), back);
  }

  /** The worked example: list 1 with one open item "Bread", members Petr and Jana in user order. */
  lemma BreadScenario(errorText: string)
    ensures var bread := ShoppingList(1, "", [Item(1, "Bread", false)], [1, 2], false);
            var users := [User(1, "Petr", None), User(2, "Jana", None)];
            var f := FocusOn(Ok([bread]), Ok(users), TargetListId, errorText);
            f.Focused? && f.list.items == [Item(1, "Bread", false)] && f.members == users
  {
    var bread := ShoppingList(1, "", [Item(1, "Bread", false)], [1, 2], false);
    var users := [User(1, "Petr", None), User(2, "Jana", None)];
    assert Find(ListIdIs(TargetListId), [bread]) == Some(bread);
    FilterKeepsAll(ListedIn([1, 2]), users);
  }
}
