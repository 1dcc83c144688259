/** The rules every screen applies to the collections it has read: how a list's items,
    owner and members are derived from the list and user collections, which lists the
    overview shows, and the local edits (toggle, delete, add) the handlers make to the
    screen's copies. None of these edits is written back to the backend. */
module Views {
  import opened Seqs
  import opened Entities

  // ---------------------------------------------------------------------------
  // Predicates handed to `filter` and `find`, named so that lemmas can refer to them.

  function ListedIn(ids: seq<int>): (p: User -> bool) {
    (u: User) => u.id in ids
  }

  /** The detail screen's member test: listed, and not the owner id `ids[0]`. */
  function ListedNotOwner(ids: seq<int>): (p: User -> bool) {
    (u: User) => u.id in ids && u.id != ids[0]
  }

  function IsOwnerOf(ids: seq<int>): (p: User -> bool) {
    (u: User) => |ids| > 0 && u.id == ids[0]
  }

  function ItemIdIsNot(id: int): (p: Item -> bool) {
    (it: Item) => it.id != id
  }

  function UserIdIsNot(id: int): (p: User -> bool) {
    (u: User) => u.id != id
  }

  function ListIdIsNot(id: int): (p: ShoppingList -> bool) {
    (l: ShoppingList) => l.id != id
  }

  function ListIdIs(id: int): (p: ShoppingList -> bool) {
    (l: ShoppingList) => l.id == id
  }

  function UserNamed(name: string): (p: User -> bool) {
    (u: User) => u.name == name
  }

  /** The overview's test: the acting user is a member and the list is shown in the current mode. */
  function ShownTo(currentUserId: int, showArchived: bool): (p: ShoppingList -> bool) {
    (l: ShoppingList) => currentUserId in l.users && (showArchived || !l.archived)
  }

  // ---------------------------------------------------------------------------
  // Join rules

  /** The panels' member view: the users whose id the list names, in user-collection order. */
  function Members(users: seq<User>, ids: seq<int>): (r: seq<User>)
    ensures IsSubsequence(r, users)
    ensures forall u: User :: u in r <==> u in users && u.id in ids
    ensures forall u: User :: u.id in ids ==> multiset(r)[u] == multiset(users)[u]
  {
    FilterIsSubsequence(ListedIn(ids), users);
    FilterMultiplicity(ListedIn(ids), users);
    Filter(ListedIn(ids), users)
  }

  /** The first user whose id is the list's first member id; none when that id is missing
      (including when the list has no member ids, since `ids[0]` is then `undefined`). */
  function OwnerOf(users: seq<User>, ids: seq<int>): (r: Option<User>)
    ensures r.None? <==> |ids| == 0 || forall i :: 0 <= i < |users| ==> users[i].id != ids[0]
    ensures r.Some? ==> |ids| > 0
    ensures r.Some? ==>
              exists k :: 0 <= k < |users| && r.value == users[k] && users[k].id == ids[0] &&
                          forall j :: 0 <= j < k ==> users[j].id != ids[0]
  {
    Find(IsOwnerOf(ids), users)
  }

  /** What the detail screen holds as owner: a real user, or a stand-in carrying only a name. */
  datatype OwnerView = OwnerUser(user: User) | OwnerPlaceholder(name: string)

  const UnknownOwnerName: string := "Neznámý vlastník"

  /** The detail screen's owner: the owner user, else the "unknown owner" stand-in. */
  function DetailOwner(users: seq<User>, ids: seq<int>): (r: OwnerView)
    ensures r.OwnerUser? ==> |ids| > 0 && r.user in users && r.user.id == ids[0]
    ensures r.OwnerUser? ==> OwnerOf(users, ids) == Some(r.user)
    ensures r.OwnerPlaceholder? <==> |ids| == 0 || forall i :: 0 <= i < |users| ==> users[i].id != ids[0]
    ensures r.OwnerPlaceholder? ==> r.name == UnknownOwnerName
  {
    match OwnerOf(users, ids)
    case Some(u) => OwnerUser(u)
    case None => OwnerPlaceholder(UnknownOwnerName)
  }

  /** The detail screen's members: listed users other than the owner id, in user-collection order. */
  function MembersExceptOwner(users: seq<User>, ids: seq<int>): (r: seq<User>)
    ensures IsSubsequence(r, users)
    ensures forall u: User :: u in r <==> u in users && u.id in ids && u.id != ids[0]
    ensures forall u: User :: multiset(r)[u] == if u.id in ids && u.id != ids[0] then multiset(users)[u] else 0
    ensures |ids| == 0 ==> r == []
  {
    FilterIsSubsequence(ListedNotOwner(ids), users);
    FilterMultiplicity(ListedNotOwner(ids), users);
    Filter(ListedNotOwner(ids), users)
  }

  /** The owner's id never appears among the detail screen's members. */
  lemma OwnerNotAmongMembers(users: seq<User>, ids: seq<int>)
    requires |ids| > 0
    ensures forall i :: 0 <= i < |MembersExceptOwner(users, ids)| ==>
              MembersExceptOwner(users, ids)[i].id != ids[0]
  {
  }

  /** The detail screen's members are the panels' members with the owner taken out,
      in the same order. */
  lemma {:induction false} DetailMembersWithinMembers(users: seq<User>, ids: seq<int>)
    ensures IsSubsequence(MembersExceptOwner(users, ids), Members(users, ids))
  {
    FilterStronger(ListedNotOwner(ids), ListedIn(ids), users);
  }

  /** The overview's lists: those the acting user belongs to, archived ones only when
      `showArchived` is set, in their original order. */
  function Visible(lists: seq<ShoppingList>, currentUserId: int, showArchived: bool): (r: seq<ShoppingList>)
    ensures IsSubsequence(r, lists)
    ensures forall l: ShoppingList :: l in r <==> l in lists && currentUserId in l.users && (showArchived || !l.archived)
    ensures forall l: ShoppingList ::
              multiset(r)[l] == if currentUserId in l.users && (showArchived || !l.archived) then multiset(lists)[l] else 0
  {
    FilterIsSubsequence(ShownTo(currentUserId, showArchived), lists);
    FilterMultiplicity(ShownTo(currentUserId, showArchived), lists);
    Filter(ShownTo(currentUserId, showArchived), lists)
  }

  /** Hiding archived lists shows a subsequence of what "show all" shows. */
  lemma {:induction false} ActiveWithinAll(lists: seq<ShoppingList>, currentUserId: int)
    ensures IsSubsequence(Visible(lists, currentUserId, false), Visible(lists, currentUserId, true))
  {
    FilterStronger(ShownTo(currentUserId, false), ShownTo(currentUserId, true), lists);
  }

  /** With every list shown in both modes, the two modes agree. */
  lemma {:induction false} NoArchivedMeansSameView(lists: seq<ShoppingList>, currentUserId: int)
    requires forall i :: 0 <= i < |lists| ==> !lists[i].archived
    ensures Visible(lists, currentUserId, false) == Visible(lists, currentUserId, true)
  {
    if lists != [] {
      NoArchivedMeansSameView(lists[1..], currentUserId);
    }
  }

  /** What the admin and user panels derive once both reads have settled: an error, no list
      with the target id (the "not found" view), or the target list with its members. */
  datatype Focus = FocusError(message: string) | NoTargetList | Focused(list: ShoppingList, members: seq<User>)

  /** The panels' `fetchData` after `Promise.all`: fail unless both reads are ok; otherwise pick
      the first list with the target id, seed items from it and join its members. */
  function FocusOn(listsRes: Response<seq<ShoppingList>>, usersRes: Response<seq<User>>,
                   targetId: int, errorText: string): (r: Focus)
    ensures r.FocusError? <==> !(listsRes.Ok? && usersRes.Ok?)
    ensures r.FocusError? ==> r.message == SettleBoth(listsRes, usersRes, errorText).message
    ensures r.NoTargetList? ==> listsRes.Ok? && forall i :: 0 <= i < |listsRes.body| ==> listsRes.body[i].id != targetId
    ensures r.Focused? ==> listsRes.Ok? && usersRes.Ok? && r.list.id == targetId &&
                           r.members == Members(usersRes.body, r.list.users)
    ensures r.Focused? ==>
              exists k :: 0 <= k < |listsRes.body| && listsRes.body[k] == r.list &&
                          forall j :: 0 <= j < k ==> listsRes.body[j].id != targetId
  {
    match SettleBoth(listsRes, usersRes, errorText)
    case LoadError(m) => FocusError(m)
    case Loaded(lists, users) =>
      match Find(ListIdIs(targetId), lists)
      case None => NoTargetList
      case Some(l) => Focused(l, Members(users, l.users))
  }

  /** What a panel renders: loading first, then an error, then "not found", then the list. */
  datatype PanelScreen = Loading | ErrorShown(message: string) | ListNotFound | ShowingList(items: seq<Item>, members: seq<User>)

  // ---------------------------------------------------------------------------
  // Local edits

  /** Flip `completed` on exactly the items with the given id; ids, names and order stay. */
  function ToggleCompleted(items: seq<Item>, id: int): (r: seq<Item>)
    ensures |r| == |items|
    ensures forall i :: 0 <= i < |r| ==>
              r[i].id == items[i].id && r[i].name == items[i].name &&
              (r[i].completed <==> (items[i].completed != (items[i].id == id)))
  {
    if items == [] then []
    else
      var it := items[0];
      [if it.id == id then it.(completed := !it.completed) else it] + ToggleCompleted(items[1..], id)
  }

  /** Toggling the same id twice gives back the original items. */
  lemma {:induction false} ToggleTwiceRestores(items: seq<Item>, id: int)
    ensures ToggleCompleted(ToggleCompleted(items, id), id) == items
  {
    var once := ToggleCompleted(items, id);
    var twice := ToggleCompleted(once, id);
    forall i | 0 <= i < |items|
      ensures twice[i] == items[i]
    {
      assert twice[i].completed == items[i].completed;
    }
  }

  /** Toggling an id no item has leaves the items identical. */
  lemma ToggleAbsentIsIdentity(items: seq<Item>, id: int)
    requires forall i :: 0 <= i < |items| ==> items[i].id != id
    ensures ToggleCompleted(items, id) == items
  {
    var r := ToggleCompleted(items, id);
    forall i | 0 <= i < |items|
      ensures r[i] == items[i]
    {
    }
  }

  /** Drop every item with the given id; all others keep their order and multiplicity. */
  function RemoveItem(items: seq<Item>, id: int): (r: seq<Item>)
    ensures IsSubsequence(r, items)
    ensures forall it: Item :: it in r <==> it in items && it.id != id
    ensures forall it: Item :: multiset(r)[it] == if it.id == id then 0 else multiset(items)[it]
  {
    FilterIsSubsequence(ItemIdIsNot(id), items);
    FilterMultiplicity(ItemIdIsNot(id), items);
    Filter(ItemIdIsNot(id), items)
  }

  /** Drop every user with the given id; all others keep their order and multiplicity. */
  function RemoveUser(users: seq<User>, id: int): (r: seq<User>)
    ensures IsSubsequence(r, users)
    ensures forall u: User :: u in r <==> u in users && u.id != id
    ensures forall u: User :: multiset(r)[u] == if u.id == id then 0 else multiset(users)[u]
  {
    FilterIsSubsequence(UserIdIsNot(id), users);
    FilterMultiplicity(UserIdIsNot(id), users);
    Filter(UserIdIsNot(id), users)
  }

  /** Drop every list with the given id; all others keep their order and multiplicity. */
  function RemoveList(lists: seq<ShoppingList>, id: int): (r: seq<ShoppingList>)
    ensures IsSubsequence(r, lists)
    ensures forall l: ShoppingList :: l in r <==> l in lists && l.id != id
    ensures forall l: ShoppingList :: multiset(r)[l] == if l.id == id then 0 else multiset(lists)[l]
  {
    FilterIsSubsequence(ListIdIsNot(id), lists);
    FilterMultiplicity(ListIdIsNot(id), lists);
    Filter(ListIdIsNot(id), lists)
  }

  /** Removing an id nobody has changes nothing. */
  lemma RemoveAbsentItem(items: seq<Item>, id: int)
    requires forall i :: 0 <= i < |items| ==> items[i].id != id
    ensures RemoveItem(items, id) == items
  {
    FilterKeepsAll(ItemIdIsNot(id), items);
  }

  /** Adding an item under a fresh id and then deleting that id restores the items. */
  lemma AddThenRemoveItem(items: seq<Item>, name: string, freshId: int)
    requires forall i :: 0 <= i < |items| ==> items[i].id != freshId
    ensures RemoveItem(items + [Item(freshId, name, false)], freshId) == items
  {
    FilterAppend(ItemIdIsNot(freshId), items, [Item(freshId, name, false)]);
    FilterKeepsAll(ItemIdIsNot(freshId), items);
  }

  /** Adding a user under a fresh id and then deleting that id restores the users. */
  lemma AddThenRemoveUser(users: seq<User>, name: string, freshId: int)
    requires forall i :: 0 <= i < |users| ==> users[i].id != freshId
    ensures RemoveUser(users + [User(freshId, name, None)], freshId) == users
  {
    FilterAppend(UserIdIsNot(freshId), users, [User(freshId, name, None)]);
    FilterKeepsAll(UserIdIsNot(freshId), users);
  }

  /** `users.find(u => u.name === name)` found something: a user has exactly that name. */
  predicate HasUserNamed(users: seq<User>, name: string) {
    Find(UserNamed(name), users).Some?
  }

  lemma HasUserNamedIff(users: seq<User>, name: string)
    ensures HasUserNamed(users, name) <==> exists i :: 0 <= i < |users| && users[i].name == name
  {
  }

  /** The list the overview appends: the next sequential id, the acting user as sole
      member and owner, no items, not archived. */
  function NewList(lists: seq<ShoppingList>, name: string, currentUserId: int): (l: ShoppingList) {
    ShoppingList(|lists| + 1, name, [], [currentUserId], false)
  }

  /** A list just added is shown at the end of the overview, whatever the archive mode. */
  lemma AddedListIsVisible(lists: seq<ShoppingList>, name: string, currentUserId: int, showArchived: bool)
    ensures Visible(lists + [NewList(lists, name, currentUserId)], currentUserId, showArchived)
         == Visible(lists, currentUserId, showArchived) + [NewList(lists, name, currentUserId)]
  {
    FilterAppend(ShownTo(currentUserId, showArchived), lists, [NewList(lists, name, currentUserId)]);
  }

  /** Adding a list and deleting it again restores the collection, provided no list
      already had the id `|lists| + 1`. */
  lemma AddThenRemoveList(lists: seq<ShoppingList>, name: string, currentUserId: int)
    requires forall i :: 0 <= i < |lists| ==> lists[i].id != |lists| + 1
    ensures RemoveList(lists + [NewList(lists, name, currentUserId)], |lists| + 1) == lists
  {
    FilterAppend(ListIdIsNot(|lists| + 1), lists, [NewList(lists, name, currentUserId)]);
    FilterKeepsAll(ListIdIsNot(|lists| + 1), lists);
  }

  /** The sequential id is not always fresh: after one of three lists is deleted, the
      next list added reuses the id of the last one, and deleting that id then removes both. */
  lemma AddedListIdCanCollide()
    ensures var before := [ShoppingList(1, "A", [], [1], false), ShoppingList(3, "C", [], [1], false)];
            var added := NewList(before, "D", 1);
            added.id == 3 && RemoveList(before + [added], 3) == [before[0]]
  {
    var before := [ShoppingList(1, "A", [], [1], false), ShoppingList(3, "C", [], [1], false)];
    var added := NewList(before, "D", 1);
    assert before + [added] == [before[0]] + [before[1]] + [added];
    FilterAppend(ListIdIsNot(3), [before[0]] + [before[1]], [added]);
    FilterAppend(ListIdIsNot(3), [before[0]], [before[1]]);
  }
}
