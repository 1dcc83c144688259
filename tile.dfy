/** One list's tile on the overview: it names the owner and asks for confirmation before
    handing the list's id to the overview's delete handler. */
module TileWidget {
  import opened Seqs
  import opened Entities
  import opened Views

  const UnknownOwnerLabel: string := "Unknown"

  /** The owner line: the name of the first user whose id is the list's first member id,
      else "Unknown". */
  function OwnerLabel(list: ShoppingList, users: seq<User>): (r: string)
    ensures (|list.users| == 0 || forall i :: 0 <= i < |users| ==> users[i].id != list.users[0]) ==>
              r == UnknownOwnerLabel
    ensures (|list.users| > 0 && exists i :: 0 <= i < |users| && users[i].id == list.users[0]) ==>
              exists k :: 0 <= k < |users| && users[k].id == list.users[0] && r == users[k].name &&
                          forall j :: 0 <= j < k ==> users[j].id != list.users[0]
  {
    match OwnerOf(users, list.users)
    case Some(u) => u.name
    case None => UnknownOwnerLabel
  }

  class ShoppingListTile {
    const list: ShoppingList
    const users: seq<User>
    var showDeleteModal: bool

    constructor (list: ShoppingList, users: seq<User>)
      ensures this.list == list && this.users == users && !showDeleteModal
    {
      this.list := list;
      this.users := users;
      showDeleteModal := false;
    }

    /** `handleShow`, bound to the delete button. */
    method HandleShow()
      modifies this`showDeleteModal
      ensures showDeleteModal
    {
      showDeleteModal := true;
    }

    /** `handleClose`, bound to the dialog's cancel button and close control; nothing is deleted. */
    method HandleClose()
      modifies this`showDeleteModal
      ensures !showDeleteModal
    {
      showDeleteModal := false;
    }

    /** `handleConfirmDelete`: the one call to `onDelete`, whose argument is returned here,
        followed by closing the dialog. */
    method HandleConfirmDelete() returns (deletedId: int)
      modifies this`showDeleteModal
      ensures deletedId == list.id && !showDeleteModal
    {
      deletedId := list.id;
      HandleClose();
    }
  }
}
