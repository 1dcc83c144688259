/** The in-browser stand-in for the REST backend: fixed list and user fixtures and
    `mockFetch`, which classifies a request by its URL and options and settles with
    200, 404, 204 or a rejection. The fixtures are frozen copies, so the classifier is
    a pure function of the request. */
module MockServer {
  import opened Seqs
  import opened Text
  import opened Entities
  import opened Views

  /** The second argument of `fetch`; only its `method` (here `httpMethod`) is consulted. */
  datatype RequestOptions = RequestOptions(httpMethod: Option<string>)

  datatype Payload =
    | ListsBody(lists: seq<ShoppingList>)
    | ListBody(list: ShoppingList)
    | UsersBody(users: seq<User>)
    | TextBody(text: string)
    | NoBody

  /** A promise resolved with a response of the given status and body, or rejected with an error. */
  datatype Reply = Resolved(status: int, payload: Payload) | Rejected(message: string)

  const MockLists: seq<ShoppingList> := [
    ShoppingList(1, "Seznam 1",
      [Item(1, "Položka 1", false), Item(2, "Položka 2", true), Item(3, "Položka 3", false)],
      [1, 2], true),
    ShoppingList(2, "Seznam 2",
      [Item(4, "Položka A", false), Item(5, "Položka B", true)],
      [2, 3], true),
    ShoppingList(3, "Seznam 3",
      [Item(6, "Položka X", false), Item(7, "Položka Y", true), Item(8, "Položka Z", false)],
      [1, 4], false),
    ShoppingList(4, "Seznam 4",
      [Item(9, "Položka AA", true), Item(10, "Položka BB", false)],
      [3, 4], false),
    ShoppingList(5, "Seznam 5",
      [Item(11, "Položka 11", false), Item(12, "Položka 12", true), Item(13, "Položka 13", false)],
      [1, 2, 3], false)
  ]

  const MockUsers: seq<User> := [
    User(1, "Petr Novák", Some("petr.novak@example.com")),
    User(2, "Jana Svobodová", Some("jana.svobodova@example.com")),
    User(3, "Karel Dvořák", Some("karel.dvorak@example.com")),
    User(4, "Eva Novotná", Some("eva.novotna@example.com"))
  ]

  const NotFoundText: string := "List Not Found"
  const UnknownEndpointPrefix: string := "Unknown endpoint: "

  /** No options at all, or options whose method is exactly "GET". */
  predicate IsGet(options: Option<RequestOptions>) {
    options.None? || options.value.httpMethod == Some("GET")
  }

  /** `url.match(/\/lists\/\d+$/)`: the URL ends in `/lists/` followed by one or more digits. */
  predicate MatchesListId(url: string) {
    var d := TrailingDigits(url);
    |d| > 0 && EndsWith(url[..|url| - |d|], "/lists/")
  }

  /** The digits ending `p + d` are exactly `d` when `p` ends in a non-digit. */
  lemma {:induction false} TrailingDigitsAfter(p: string, d: string)
    requires AllDigits(d) && |p| > 0 && !IsDigit(p[|p| - 1])
    ensures TrailingDigits(p + d) == d
  {
    if d != [] {
      assert (p + d)[..|p + d| - 1] == p + d[..|d| - 1];
      TrailingDigitsAfter(p, d[..|d| - 1]);
    } else {
      assert p + d == p;
    }
  }

  /** The text after the last `/` of `p + d` is `d` when `p` ends in `/` and `d` has no `/`. */
  lemma {:induction false} LastSegmentAfter(p: string, d: string)
    requires AllDigits(d) && |p| > 0 && p[|p| - 1] == '/'
    ensures LastSegment(p + d) == d
  {
    if d != [] {
      assert (p + d)[..|p + d| - 1] == p + d[..|d| - 1];
      LastSegmentAfter(p, d[..|d| - 1]);
    } else {
      assert p + d == p;
    }
  }

  /** `/lists/` starts at position `k` of `url` and only digits follow it, at least one. */
  predicate ListIdMatchAt(url: string, k: nat) {
    k + 7 < |url| && url[k..k + 7] == "/lists/" && AllDigits(url[k + 7..])
  }

  /** `MatchesListId` is the regular expression's meaning: some prefix, then `/lists/`,
      then a non-empty run of digits up to the end. */
  lemma MatchesListIdIff(url: string)
    ensures MatchesListId(url) <==> exists k: nat :: ListIdMatchAt(url, k)
  {
    if MatchesListId(url) {
      MatchPosition(url);
    }
    if exists k: nat :: ListIdMatchAt(url, k) {
      var k: nat :| ListIdMatchAt(url, k);
      MatchFromPosition(url, k);
    }
  }

  /** A match has `/lists/` right before the trailing digits. */
  lemma MatchPosition(url: string)
    requires MatchesListId(url)
    ensures ListIdMatchAt(url, |url| - |TrailingDigits(url)| - 7)
  {
    var d := TrailingDigits(url);
    var k := |url| - |d| - 7;
    assert url[k + 7..] == d;
    assert url[k..k + 7] == url[..|url| - |d|][|url| - |d| - 7..];
  }

  /** `/lists/` followed only by digits, up to the end, is a match. */
  lemma MatchFromPosition(url: string, k: nat)
    requires ListIdMatchAt(url, k)
    ensures MatchesListId(url)
  {
    var d := TrailingDigits(url);
    assert url == url[..k + 7] + url[k + 7..];
    TrailingDigitsAfter(url[..k + 7], url[k + 7..]);
    assert url[..|url| - |d|] == url[..k + 7];
  }

  /** `parseInt(url.split("/").pop(), 10)` on a URL that matched the pattern. */
  function RequestedListId(url: string): (id: nat)
    requires MatchesListId(url)
    ensures id == DigitsValue(TrailingDigits(url))
  {
    var d := TrailingDigits(url);
    assert url == url[..|url| - |d|] + d;
    LastSegmentAfter(url[..|url| - |d|], d);
    DigitsValue(LastSegment(url))
  }

  /** The id branch: the fixture list whose id is the parsed id, else a 404. */
  function ListByIdReply(url: string): (r: Reply)
    requires MatchesListId(url)
    ensures var n := RequestedListId(url);
            r == if 1 <= n <= 5 then Resolved(200, ListBody(MockLists[n - 1]))
                 else Resolved(404, TextBody(NotFoundText))
  {
    var id := RequestedListId(url);
    FindFixtureList(id);
    match Find(ListIdIs(id), MockLists)
    case Some(l) => Resolved(200, ListBody(l))
    case None => Resolved(404, TextBody(NotFoundText))
  }

  /** `mockFetch(url, options)`: the branches are tried in this order. */
  function MockFetch(url: string, options: Option<RequestOptions>): (r: Reply)
    ensures r.Resolved? ==> r.status == 200 || r.status == 404 || r.status == 204
    ensures r.Rejected? <==>
              !Includes(url, "hot-update.json") &&
              (!IsGet(options) || (!EndsWith(url, "/lists") && !MatchesListId(url) && !EndsWith(url, "/users")))
    ensures r.Rejected? ==> r.message == UnknownEndpointPrefix + url
    ensures IsGet(options) && EndsWith(url, "/lists") ==> r == Resolved(200, ListsBody(MockLists))
    ensures IsGet(options) && EndsWith(url, "/users") ==> r == Resolved(200, UsersBody(MockUsers))
    ensures r.Resolved? && r.status == 204 ==> Includes(url, "hot-update.json") && r.payload == NoBody
    ensures Includes(url, "hot-update.json") &&
            !(IsGet(options) && (EndsWith(url, "/lists") || MatchesListId(url) || EndsWith(url, "/users"))) ==>
              r == Resolved(204, NoBody)
    ensures IsGet(options) && MatchesListId(url) ==> r == ListByIdReply(url)
  {
    if EndsWith(url, "/lists") && IsGet(options) then
      ListsUrlNeverMatchesId(url);
      Resolved(200, ListsBody(MockLists))
    else if MatchesListId(url) && IsGet(options) then
      ListByIdReply(url)
    else if EndsWith(url, "/users") && IsGet(options) then
      Resolved(200, UsersBody(MockUsers))
    else if Includes(url, "hot-update.json") then
      Resolved(204, NoBody)
    else
      Rejected(UnknownEndpointPrefix + url)
  }

  /** A URL ending in `/lists` ends in a letter, so the id branch can never see it. */
  lemma ListsUrlNeverMatchesId(url: string)
    requires EndsWith(url, "/lists")
    ensures !MatchesListId(url)
  {
    assert url[|url| - 1] == 's';
  }

  /** `<prefix>/lists/<n>` takes the id branch and asks for id `n`. */
  lemma ListIdUrl(prefix: string, n: nat)
    ensures var url := prefix + "/lists/" + DecimalString(n);
            MatchesListId(url) && RequestedListId(url) == n &&
            !EndsWith(url, "/lists") && !EndsWith(url, "/users")
  {
    var ds := DecimalString(n);
    var p := prefix + "/lists/";
    var url := p + ds;
    assert url == prefix + "/lists/" + ds;
    TrailingDigitsAfter(p, ds);
    assert url[..|url| - |ds|] == p;
    assert IsDigit(url[|url| - 1]);
    DigitsValueOfDecimalString(n);
  }

  /** The fixture holds a list of id `n` exactly when `1 <= n <= 5`, at position `n - 1`. */
  lemma FindFixtureList(n: int)
    ensures Find(ListIdIs(n), MockLists) == if 1 <= n <= 5 then Some(MockLists[n - 1]) else None
  {
    FixtureListIds();
  }

  /** Fetching `<prefix>/lists/<n>` with GET gives list `n` of the fixture when it exists, else 404. */
  lemma ListByIdRoute(prefix: string, n: nat, options: Option<RequestOptions>)
    requires IsGet(options)
    ensures MockFetch(prefix + "/lists/" + DecimalString(n), options) ==
            if 1 <= n <= 5 then Resolved(200, ListBody(MockLists[n - 1]))
            else Resolved(404, TextBody(NotFoundText))
  {
    ListIdUrl(prefix, n);
    FindFixtureList(n);
  }

  /** Leading zeros in the id are ignored: a GET of `<prefix>/lists/0<n>` is answered as one
      of `<prefix>/lists/<n>` is. */
  lemma LeadingZeroRoute(prefix: string, n: nat, options: Option<RequestOptions>)
    requires IsGet(options)
    ensures MockFetch(prefix + "/lists/0" + DecimalString(n), options) ==
            if 1 <= n <= 5 then Resolved(200, ListBody(MockLists[n - 1]))
            else Resolved(404, TextBody(NotFoundText))
  {
    var url := prefix + "/lists/0" + DecimalString(n);
    ZeroPaddedIdUrl(prefix, n);
    ListIdUrl(prefix, n);
    SameIdSameReply(url, prefix + "/lists/" + DecimalString(n), options);
    ListByIdRoute(prefix, n, options);
  }

  /** The id route depends on nothing but the value of the id: two GETs whose digits read
      the same are answered alike. */
  lemma SameIdSameReply(url1: string, url2: string, options: Option<RequestOptions>)
    requires IsGet(options) && MatchesListId(url1) && MatchesListId(url2)
    requires DigitsValue(TrailingDigits(url1)) == DigitsValue(TrailingDigits(url2))
    ensures MockFetch(url1, options) == MockFetch(url2, options)
  {
  }

  /** `<prefix>/lists/0<n>` takes the id branch, and its digits read as `n`. */
  lemma ZeroPaddedIdUrl(prefix: string, n: nat)
    ensures var url := prefix + "/lists/0" + DecimalString(n);
            MatchesListId(url) && DigitsValue(TrailingDigits(url)) == n
  {
    var ds := DecimalString(n);
    var p := prefix + "/lists/";
    var url := p + ("0" + ds);
    assert prefix + "/lists/0" + ds == url;
    LeadingZeroValue(ds);
    TrailingDigitsAfter(p, "0" + ds);
    assert url[..|url| - |"0" + ds|] == p;
    DigitsValueOfDecimalString(n);
  }

  /** A hot-update manifest is answered with an empty 204, whatever the method. */
  lemma HotUpdateRoute(prefix: string, options: Option<RequestOptions>)
    ensures MockFetch(prefix + ".hot-update.json", options) == Resolved(204, NoBody)
  {
    var url := prefix + ".hot-update.json";
    assert url[|prefix| + 1..|prefix| + 1 + |"hot-update.json"|] == "hot-update.json";
    IncludesAt(url, "hot-update.json", |prefix| + 1);
    assert url[|url| - 1] == 'n';
    assert !EndsWith(url, "/lists") && !EndsWith(url, "/users");
    assert TrailingDigits(url) == [];
  }

  /** The fixture list at position `i` has id `i + 1`. */
  lemma FixtureListIds()
    ensures |MockLists| == 5
    ensures forall i :: 0 <= i < |MockLists| ==> MockLists[i].id == i + 1
  {
  }

  /** Every fixture list names at least one member, and every member id is a fixture user's id. */
  lemma FixtureMembersExist()
    ensures forall i :: 0 <= i < |MockLists| ==> |MockLists[i].users| > 0
    ensures forall i, j :: 0 <= i < |MockLists| && 0 <= j < |MockLists[i].users| ==>
              1 <= MockLists[i].users[j] <= |MockUsers| &&
              MockUsers[MockLists[i].users[j] - 1].id == MockLists[i].users[j]
  {
  }

  /** The items of all fixture lists, in list order. */
  function AllItems(lists: seq<ShoppingList>): (all: seq<Item>) {
    if lists == [] then [] else lists[0].items + AllItems(lists[1..])
  }

  /** Item ids are unique across the whole fixture (they run 1 to 13). */
  lemma FixtureItemIdsUnique()
    ensures forall i, j :: 0 <= i < j < |AllItems(MockLists)| ==>
              AllItems(MockLists)[i].id != AllItems(MockLists)[j].id
  {
    var all := AllItems(MockLists);
    assert all == MockLists[0].items + MockLists[1].items + MockLists[2].items + MockLists[3].items + MockLists[4].items;
    assert forall i :: 0 <= i < |all| ==> all[i].id == i + 1;
  }
}
