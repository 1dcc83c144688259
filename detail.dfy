/** The detail screen for one list, keyed by the route's id: it reads the list, then (only
    if that succeeded) the users, and derives the owner and the other members. */
module DetailScreen {
  import opened Seqs
  import opened Entities
  import opened Views

  const ListLoadError: string := "Nepodařilo se načíst seznam"
  const UsersLoadError: string := "Nepodařilo se načíst uživatele"
  const ListNotFoundText: string := "Seznam nenalezen"
  const NoMembersText: string := "Žádní členové"
  const NoItemsText: string := "Žádné položky"

  /** A card's body: its rows, or the text shown when there are none. */
  datatype Section<T> = Entries(rows: seq<T>) | EmptyState(text: string)

  datatype DetailView =
    | Spinner
    | ErrorAlert(message: string)
    | NotFound(text: string)
    | ListPage(title: string, ownerName: string, members: Section<User>, items: Section<Item>)
    /** The page's render reads the name of an owner that was never set, and throws. */
    | OwnerMissing

  /** The members card: the members, or "no members" when there are none. */
  function MembersSection(members: seq<User>): (r: Section<User>)
    ensures r.EmptyState? <==> members == []
    ensures r.EmptyState? ==> r.text == NoMembersText
    ensures r.Entries? ==> r.rows == members
  {
    if |members| > 0 then Entries(members) else EmptyState(NoMembersText)
  }

  /** The items card: the items, or "no items" when there are none. */
  function ItemsSection(items: seq<Item>): (r: Section<Item>)
    ensures r.EmptyState? <==> items == []
    ensures r.EmptyState? ==> r.text == NoItemsText
    ensures r.Entries? ==> r.rows == items
  {
    if |items| > 0 then Entries(items) else EmptyState(NoItemsText)
  }

  function OwnerName(o: OwnerView): (name: string) {
    match o
    case OwnerUser(u) => u.name
    case OwnerPlaceholder(n) => n
  }

  class ShoppingListDetail {
    var list: Option<ShoppingList>
    var owner: Option<OwnerView>
    var members: seq<User>
    var loading: bool
    var error: Option<string>

    /** A list stored while no error was recorded always has its owner worked out. */
    ghost predicate Valid()
      reads this
    {
      error.None? && list.Some? ==> owner.Some?
    }

    /** The state on mount, before `fetchListDetail` settles. */
    constructor ()
      ensures Valid()
      ensures list == None && owner == None && members == [] && loading && error == None
    {
      list := None;
      owner := None;
      members := [];
      loading := true;
      error := None;
    }

    /** What the screen renders: spinner, then error, then "not found", then the list. Only an
        empty error message, which the render reads as no error, can reach the page without
        an owner. */
    function Screen(): (v: DetailView)
      reads this
      ensures Valid() && v.OwnerMissing? ==> error == Some("")
    {
      if loading then Spinner
      else if ErrorIsSet(error) then ErrorAlert(error.value)
      else if list.None? then NotFound(ListNotFoundText)
      else if owner.None? then OwnerMissing
      else ListPage(list.value.name, OwnerName(owner.value), MembersSection(members), ItemsSection(list.value.items))
    }

    /** `fetchListDetail`, one read after the other. A list read that is not ok (a 404 included)
        sets the list error and the users are never requested. After a good list read the list
        is stored; a users read that is not ok then sets the users error, leaving the stored
        list in place. Otherwise owner and members are derived. `usersRequested` says whether
        the second read was issued. */
    method FetchListDetail(listRes: Response<ShoppingList>, usersRes: Response<seq<User>>)
      returns (usersRequested: bool)
      requires Valid()
      modifies this
      ensures Valid() && !loading
      ensures usersRequested <==> listRes.Ok?
      ensures listRes.Failed? ==> error == Some(listRes.message)
      ensures listRes.NotOk? ==> error == Some(ListLoadError)
      ensures !listRes.Ok? ==> list == old(list) && owner == old(owner) && members == old(members)
      ensures listRes.Ok? ==> list == Some(listRes.body)
      ensures listRes.Ok? && usersRes.Failed? ==> error == Some(usersRes.message)
      ensures listRes.Ok? && usersRes.NotOk? ==> error == Some(UsersLoadError)
      ensures listRes.Ok? && !usersRes.Ok? ==> owner == old(owner) && members == old(members)
      ensures listRes.Ok? && usersRes.Ok? ==>
                owner == Some(DetailOwner(usersRes.body, listRes.body.users)) &&
                members == MembersExceptOwner(usersRes.body, listRes.body.users) &&
                error == old(error)
      ensures !(listRes.Ok? && usersRes.Ok?) ==> error.Some? && (Screen().ErrorAlert? <==> error.value != "")
      ensures listRes.Ok? && usersRes == Failed("") && old(owner).None? ==> Screen() == OwnerMissing
    {
      loading := true;
      usersRequested := false;
      match listRes {
        case Failed(m) =>
          error := Some(m);
        case NotOk(_) =>
          error := Some(ListLoadError);
        case Ok(listData) =>
          list := Some(listData);
          usersRequested := true;
          match usersRes {
            case Failed(m) =>
              error := Some(m);
            case NotOk(_) =>
              error := Some(UsersLoadError);
            case Ok(usersData) =>
              owner := Some(DetailOwner(usersData, listData.users));
              members := MembersExceptOwner(usersData, listData.users);
          }
      }
      loading := false;
    }
  }

  /** A list with no member ids gets the "unknown owner" stand-in and no members. */
  lemma NoMemberIds(users: seq<User>, list: ShoppingList)
    requires list.users == []
    ensures DetailOwner(users, list.users) == OwnerPlaceholder(UnknownOwnerName)
    ensures MembersSection(MembersExceptOwner(users, list.users)) == EmptyState(NoMembersText)
  {
  }
}
