/** The overview screen: it reads both collections, shows the acting user's lists (archived
    ones only on request) as tiles, and adds and deletes lists locally. */
module OverviewScreen {
  import opened Seqs
  import opened Entities
  import opened Views
  import opened TileWidget

  /** The acting user; a fixed constant in this application. */
  const CurrentUserId: int := 1

  datatype OverviewView = Spinner | ErrorAlert(message: string) | Tiles(lists: seq<ShoppingList>)

  class ShoppingListOverview {
    var showListModal: bool
    var newListName: string
    var showArchived: bool
    var lists: seq<ShoppingList>
    var users: seq<User>
    var loading: bool
    var error: Option<string>

    /** The state on mount, before `fetchData` settles. */
    constructor ()
      ensures !showListModal && newListName == "" && !showArchived
      ensures lists == [] && users == [] && loading && error == None
    {
      showListModal := false;
      newListName := "";
      showArchived := false;
      lists := [];
      users := [];
      loading := true;
      error := None;
    }

    /** `filteredLists`. */
    function FilteredLists(): (shown: seq<ShoppingList>)
      reads this
    {
      Visible(lists, CurrentUserId, showArchived)
    }

    function Screen(): (v: OverviewView)
      reads this
    {
      if loading then Spinner
      else if ErrorIsSet(error) then ErrorAlert(error.value)
      else Tiles(FilteredLists())
    }

    /** `fetchData`: both collections replace the local ones, or the error is set and they stay. */
    method FetchData(listsRes: Response<seq<ShoppingList>>, usersRes: Response<seq<User>>, errorText: string)
      modifies this`lists, this`users, this`error, this`loading
      ensures !loading
      ensures SettleBoth(listsRes, usersRes, errorText).Loaded? ==>
                lists == listsRes.body && users == usersRes.body && error == old(error)
      ensures SettleBoth(listsRes, usersRes, errorText).LoadError? ==>
                error == Some(SettleBoth(listsRes, usersRes, errorText).message) &&
                lists == old(lists) && users == old(users)
      ensures !(listsRes.Ok? && usersRes.Ok?) ==>
                (Screen().ErrorAlert? <==> SettleBoth(listsRes, usersRes, errorText).message != "")
    {
      loading := true;
      match SettleBoth(listsRes, usersRes, errorText) {
        case Loaded(ls, us) =>
          lists := ls;
          users := us;
        case LoadError(m) =>
          error := Some(m);
      }
      loading := false;
    }

    /** `handleAddList`: appends a list with id `lists.length + 1`, whatever the name (no blank
        check), owned by the acting user; clears the name and closes the dialog. The new list
        is shown at the end of the overview in either archive mode. */
    method HandleAddList()
      modifies this`lists, this`newListName, this`showListModal
      ensures lists == old(lists) + [NewList(old(lists), old(newListName), CurrentUserId)]
      ensures newListName == "" && !showListModal
      ensures FilteredLists() == old(FilteredLists()) + [NewList(old(lists), old(newListName), CurrentUserId)]
    {
      var added := NewList(lists, newListName, CurrentUserId);
      AddedListIsVisible(lists, newListName, CurrentUserId, showArchived);
      lists := lists + [added];
      newListName := "";
      showListModal := false;
    }

    /** `handleDeleteList`. */
    method HandleDeleteList(listId: int)
      modifies this`lists
      ensures lists == RemoveList(old(lists), listId)
    {
      lists := RemoveList(lists, listId);
    }

    /** A tile's confirmed delete, wired to `handleDeleteList` through its `onDelete` prop:
        the list with the tile's id leaves the overview and the tile's dialog closes. */
    method ConfirmTileDelete(tile: ShoppingListTile)
      modifies this`lists, tile`showDeleteModal
      ensures lists == RemoveList(old(lists), tile.list.id) && !tile.showDeleteModal
      ensures forall i :: 0 <= i < |FilteredLists()| ==> FilteredLists()[i].id != tile.list.id
    {
      var id := tile.HandleConfirmDelete();
      HandleDeleteList(id);
    }

    /** The "add new list" button. */
    method OpenListModal()
      modifies this`showListModal
      ensures showListModal
    {
      showListModal := true;
    }

    /** The dialog's cancel button and its close control. */
    method CloseListModal()
      modifies this`showListModal
      ensures !showListModal
    {
      showListModal := false;
    }

    /** The "show all" / "show active only" button. */
    method ToggleShowArchived()
      modifies this`showArchived
      ensures showArchived == !old(showArchived)
    {
      showArchived := !showArchived;
    }

    /** The list name field's `onChange`. */
    method EditListName(value: string)
      modifies this`newListName
      ensures newListName == value
    {
      newListName := value;
    }
  }

  /** The worked example: of two lists of user 1, one archived, the default view shows only
      the active one and "show all" shows both. */
  lemma ArchiveScenario()
    ensures var archived := ShoppingList(1, "Old", [], [CurrentUserId], true);
            var active := ShoppingList(2, "New", [], [CurrentUserId], false);
            Visible([archived, active], CurrentUserId, false) == [active] &&
            Visible([archived, active], CurrentUserId, true) == [archived, active]
  {
  }
}
