/** The records every screen handles and the outcome of one read from the backend. */
module Entities {
  import opened Seqs

  datatype Item = Item(id: int, name: string, completed: bool)

  /** Users from the backend carry an email; users added on the admin screen have none. */
  datatype User = User(id: int, name: string, email: Option<string>)

  /** `users` holds member ids; its first element is the owner's id. */
  datatype ShoppingList = ShoppingList(id: int, name: string, items: seq<Item>, users: seq<int>, archived: bool)

  /** How one `fetch` settles, as the screens see it: a response whose `ok` flag is set
      (with its parsed body), a response whose `ok` flag is clear, or a rejected promise. */
  datatype Response<T> = Ok(body: T) | NotOk(status: int) | Failed(message: string)

  /** An `error` slot as a render's `if (error)` reads it: `null` and the empty message are
      both falsy, so only a non-empty message selects the error view. */
  predicate ErrorIsSet(error: Option<string>) {
    error.Some? && error.value != ""
  }

  /** The joint outcome of awaiting two reads with `Promise.all` and then testing both `ok` flags. */
  datatype Settled<A, B> = Loaded(first: A, second: B) | LoadError(message: string)

  /** Awaiting both reads and throwing `errorText` unless both are ok. A rejected read throws
      its own message before the `ok` test runs. Nothing partial is ever loaded. */
  function SettleBoth<A, B>(a: Response<A>, b: Response<B>, errorText: string): (r: Settled<A, B>)
    ensures r.Loaded? <==> a.Ok? && b.Ok?
    ensures r.Loaded? ==> r.first == a.body && r.second == b.body
    ensures a.Failed? ==> r == LoadError(a.message)
    ensures !a.Failed? && b.Failed? ==> r == LoadError(b.message)
    ensures !a.Failed? && !b.Failed? && (a.NotOk? || b.NotOk?) ==> r == LoadError(errorText)
  {
    match (a, b)
    case (Failed(m), _) => LoadError(m)
    case (_, Failed(m)) => LoadError(m)
    case (Ok(x), Ok(y)) => Loaded(x, y)
    case _ => LoadError(errorText)
  }
}
