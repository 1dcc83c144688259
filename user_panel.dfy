/** The user screen: the same read and focus on list 1 as the admin screen, with item
    toggling and deletion and a "leave list" button that only shows a message. */
module UserScreen {
  import opened Seqs
  import opened Entities
  import opened Views

  /** The list the user screen always shows. */
  const TargetListId: int := 1

  class UserPanel {
    var currentList: Option<ShoppingList>
    var items: seq<Item>
    var users: seq<User>
    var loading: bool
    var error: Option<string>

    /** The state on mount, before `fetchData` settles. */
    constructor ()
      ensures currentList == None && items == [] && users == []
      ensures loading && error == None
    {
      currentList := None;
      items := [];
      users := [];
      loading := true;
      error := None;
    }

    function Screen(): (v: PanelScreen)
      reads this
    {
      if loading then Loading
      else if ErrorIsSet(error) then ErrorShown(error.value)
      else if currentList.None? then ListNotFound
      else ShowingList(items, users)
    }

    /** `fetchData` once both reads have settled: an error leaves the slices alone, a missing
        list 1 leaves them alone (so the "not found" view is chosen on first load), list 1
        replaces the list, its items and its members. Loading ends in every case. */
    method FetchData(listsRes: Response<seq<ShoppingList>>, usersRes: Response<seq<User>>, errorText: string)
      modifies this
      ensures !loading
      ensures FocusOn(listsRes, usersRes, TargetListId, errorText).FocusError? ==>
                error == Some(SettleBoth(listsRes, usersRes, errorText).message) &&
                currentList == old(currentList) && items == old(items) && users == old(users)
      ensures FocusOn(listsRes, usersRes, TargetListId, errorText).NoTargetList? ==>
                error == old(error) && currentList == old(currentList) && items == old(items) && users == old(users)
      ensures FocusOn(listsRes, usersRes, TargetListId, errorText).Focused? ==>
                var f := FocusOn(listsRes, usersRes, TargetListId, errorText);
                error == old(error) && currentList == Some(f.list) && items == f.list.items && users == f.members
      ensures !(listsRes.Ok? && usersRes.Ok?) ==>
                (Screen().ErrorShown? <==> SettleBoth(listsRes, usersRes, errorText).message != "")
      ensures (old(currentList).None? && !ErrorIsSet(old(error)) &&
               FocusOn(listsRes, usersRes, TargetListId, errorText).NoTargetList?) ==> Screen() == ListNotFound
    {
      loading := true;
      match FocusOn(listsRes, usersRes, TargetListId, errorText) {
        case FocusError(m) =>
          error := Some(m);
        case NoTargetList =>
        case Focused(l, ms) =>
          currentList := Some(l);
          items := l.items;
          users := ms;
      }
      loading := false;
    }

    /** `handleToggleCompleted`. */
    method HandleToggleCompleted(id: int)
      modifies this`items
      ensures items == ToggleCompleted(old(items), id)
    {
      items := ToggleCompleted(items, id);
    }

    /** `handleDeleteItem`. */
    method HandleDeleteItem(id: int)
      modifies this`items
      ensures items == RemoveItem(old(items), id)
    {
      items := RemoveItem(items, id);
    }

    /** `handleLeaveList` only shows a message; no state slice changes. */
    method HandleLeaveList()
      ensures unchanged(this)
    {
    }
  }
}
