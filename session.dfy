/** The session flag and the route table of the newer application. The browser's
    `localStorage` is a map from keys to strings; the router's location is the last entry
    of a history stack. Signing in writes `isAuthenticated = "true"` and the user name,
    signing out removes both, and `ProtectedRoute` admits exactly when the stored flag is
    the string "true". */
module Session {
  import opened Optional

  const AuthKey := "isAuthenticated"
  const UserKey := "username"

  /** The browser state the application touches: `localStorage` and the history stack. */
  class Browser {
    var storage: map<string, string>
    var history: seq<string>

    ghost predicate Valid()
      reads this
    {
      history != []
    }

    /** The path being shown. */
    function Location(): (p: string)
      reads this
      requires Valid()
      ensures p in history
    {
      history[|history| - 1]
    }

    constructor (stored: map<string, string>, path: string)
      ensures Valid() && storage == stored && history == [path]
    {
      storage := stored;
      history := [path];
    }

    /** `localStorage.setItem(key, value)`. */
    method SetItem(key: string, value: string)
      modifies this
      ensures storage == old(storage)[key := value] && history == old(history)
    {
      storage := storage[key := value];
    }

    /** `localStorage.removeItem(key)`: nothing happens when the key is absent. */
    method RemoveItem(key: string)
      modifies this
      ensures storage == old(storage) - {key} && history == old(history)
    {
      storage := storage - {key};
    }

    /** `navigate(to)` pushes a history entry; `navigate(to, { replace: true })`
        overwrites the current one. */
    method Navigate(to: string, replace: bool)
      requires Valid()
      modifies this
      ensures Valid() && storage == old(storage) && Location() == to
      ensures history == if replace then old(history)[..|old(history)| - 1] + [to]
                         else old(history) + [to]
      ensures |history| == if replace then |old(history)| else |old(history)| + 1
    {
      if replace {
        history := history[..|history| - 1] + [to];
      } else {
        history := history + [to];
      }
    }
  }

  /** `localStorage.getItem(key)`: `null` (here `None`) for a missing key. */
  function GetItem(storage: map<string, string>, key: string): (r: Option<string>)
    ensures r.Some? <==> key in storage
    ensures r.Some? ==> r.value == storage[key]
  {
    if key in storage then Some(storage[key]) else None
  }

  /** `localStorage.getItem("isAuthenticated") === "true"`. */
  predicate Authenticated(storage: map<string, string>)
  {
    GetItem(storage, AuthKey) == Some("true")
  }

  /** The two writes of a successful login. */
  function SignIn(storage: map<string, string>, user: string): (r: map<string, string>)
    ensures Authenticated(r)
    ensures GetItem(r, UserKey) == Some(user)
    ensures forall k :: k != AuthKey && k != UserKey ==> GetItem(r, k) == GetItem(storage, k)
  {
    storage[AuthKey := "true"][UserKey := user]
  }

  /** The two removals of `handleLogout`. */
  function SignOut(storage: map<string, string>): (r: map<string, string>)
    ensures !Authenticated(r)
    ensures GetItem(r, AuthKey) == None && GetItem(r, UserKey) == None
    ensures forall k :: k != AuthKey && k != UserKey ==> GetItem(r, k) == GetItem(storage, k)
  {
    storage - {AuthKey} - {UserKey}
  }

  /** Signing out after signing in leaves what signing out alone leaves: a login leaves
      no trace once the user has logged out. */
  lemma SignOutUndoesSignIn(storage: map<string, string>, user: string)
    ensures SignOut(SignIn(storage, user)) == SignOut(storage)
  {
    var l, r := SignOut(SignIn(storage, user)), SignOut(storage);
    assert l.Keys == r.Keys;
  }

  /** The sidebar's user name: `localStorage.getItem("username") || "User"`, so a missing
      or empty name shows as "User". */
  function DisplayName(storage: map<string, string>): (r: string)
    ensures r != ""
    ensures UserKey in storage && storage[UserKey] != "" ==> r == storage[UserKey]
    ensures UserKey !in storage || storage[UserKey] == "" ==> r == "User"
  {
    match GetItem(storage, UserKey)
    case Some(name) => if name != "" then name else "User"
    case None => "User"
  }

  /** After a login the dashboard shows the name that was typed, if it was not empty. */
  lemma DisplayNameAfterSignIn(storage: map<string, string>, user: string)
    ensures DisplayName(SignIn(storage, user)) == if user == "" then "User" else user
  {
  }

  /** What the router renders at a location. */
  datatype Screen =
    | LoginPage
    | DashboardPage
    | RedirectTo(to: string, replace: bool)
    | NoMatch

  /** `ProtectedRoute`: the children when the stored flag is "true", otherwise a
      replacing redirect to the login page. */
  function Guard(storage: map<string, string>, children: Screen): (r: Screen)
    ensures Authenticated(storage) ==> r == children
    ensures !Authenticated(storage) ==> r == RedirectTo("/login", true)
  {
    if GetItem(storage, AuthKey) == Some("true") then children else RedirectTo("/login", true)
  }

  /** The route table: "/login" unguarded, "/dashboard" behind the guard, "/" redirected
      to "/dashboard"; no other path matches. */
  function Route(path: string, storage: map<string, string>): (r: Screen)
    ensures r == DashboardPage ==> path == "/dashboard" && Authenticated(storage)
    ensures r == LoginPage <==> path == "/login"
    ensures r == NoMatch <==> path !in {"/", "/login", "/dashboard"}
    ensures path == "/" ==> r == RedirectTo("/dashboard", true)
    ensures path == "/dashboard" && Authenticated(storage) ==> r == DashboardPage
    ensures path == "/dashboard" && !Authenticated(storage) ==> r == RedirectTo("/login", true)
  {
    if path == "/login" then LoginPage
    else if path == "/dashboard" then Guard(storage, DashboardPage)
    else if path == "/" then RedirectTo("/dashboard", true)
    else NoMatch
  }

  /** The guard admits any storage a login has written to, whatever was there before, and
      turns away any storage a logout has cleared. */
  lemma GuardFollowsSession(storage: map<string, string>, user: string, children: Screen)
    ensures Guard(SignIn(storage, user), children) == children
    ensures Guard(SignOut(storage), children) == RedirectTo("/login", true)
  {
  }

  /** Only the exact string "true" counts: a missing flag or any other value, such as
      "false" or "True", is turned away. */
  lemma GuardRejectsOtherValues(storage: map<string, string>, children: Screen)
    requires AuthKey !in storage || storage[AuthKey] != "true"
    ensures Guard(storage, children) == RedirectTo("/login", true)
  {
  }
}
