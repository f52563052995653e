/** Shared vocabulary of the client: optional values, the outcome of one remote
    request, the application's routes, validation issues, subsequences (what
    a `filter` returns), and the browser environment (the `user` key of local storage and the last navigation). */
module Common {
  import opened Records

  datatype Option<+T> = None | Some(value: T)

  /** The outcome of one `fetch` followed by `json()`: either the response was
      ok and carried an array, or the request failed (transport error or a
      non-ok status). */
  datatype Fetch<+T> = Ok(data: seq<T>) | Fail

  /** The routes the pages navigate to: "/", "/login" and "/user". */
  datatype Route = Home | LoginRoute | UserRoute

  /** One issue of a failed schema parse: the path of the offending field and
      its message. */
  datatype Issue = Issue(path: seq<string>, message: string)

  /** `a` is `b` with some elements left out, the rest in their order. */
  predicate IsSubsequence<T(==)>(a: seq<T>, b: seq<T>) {
    if a == [] then true
    else if b == [] then false
    else (a[0] == b[0] && IsSubsequence(a[1..], b[1..])) || IsSubsequence(a, b[1..])
  }

  lemma {:induction false} SubsequenceOfTail<T>(a: seq<T>, b: seq<T>)
    requires b != [] && IsSubsequence(a, b[1..])
    ensures IsSubsequence(a, b)
  {
  }

  /** The browser as seen by the pages: the record stored under the `user`
      key of local storage (None when the key is absent) and the route of the
      last `router.push`, if any. */
  class Browser {
    var storedUser: Option<User>
    var route: Option<Route>

    constructor (stored: Option<User>)
      ensures storedUser == stored && route == None
    {
      storedUser := stored;
      route := None;
    }
  }
}
