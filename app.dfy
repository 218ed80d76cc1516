/** Where the application ends up after the redirects of the route table and of the login
    page's mount effect have run. */
module App {
  import opened Optional
  import opened Session
  import opened Login

  /** At most `hops` redirects followed from `path`: the route table's `<Navigate>`
      elements and the login page's mount effect. */
  function Follow(path: string, storage: map<string, string>, hops: nat): string
    decreases hops
  {
    if hops == 0 then path
    else
      match Route(path, storage)
      case RedirectTo(to, _) => Follow(to, storage, hops - 1)
      case LoginPage =>
        (match MountTarget(storage)
         case Some(to) => Follow(to, storage, hops - 1)
         case None => path)
      case DashboardPage => path
      case NoMatch => path
  }

  /** A location that nothing redirects away from. */
  predicate Settled(path: string, storage: map<string, string>)
  {
    match Route(path, storage)
    case RedirectTo(_, _) => false
    case LoginPage => MountTarget(storage).None?
    case DashboardPage => true
    case NoMatch => true
  }

  /** From a settled location no number of hops moves away. */
  lemma SettledStays(path: string, storage: map<string, string>, hops: nat)
    requires Settled(path, storage)
    ensures Follow(path, storage, hops) == path
  {
  }

  /** Every location of the route table leads, within two redirects, to the dashboard
      when the stored flag is "true" and to the login page otherwise, and stays there:
      there is no redirect loop. */
  lemma {:induction false} Lands(path: string, storage: map<string, string>, hops: nat)
    requires path in {"/", "/login", "/dashboard"}
    requires hops >= 2
    ensures Follow(path, storage, hops)
         == if Authenticated(storage) then "/dashboard" else "/login"
    ensures Settled(Follow(path, storage, hops), storage)
  {
    var target := if Authenticated(storage) then "/dashboard" else "/login";
    assert Settled(target, storage);
    SettledStays(target, storage, hops - 1);
    SettledStays(target, storage, hops - 2);
    if path == "/" && !Authenticated(storage) {
      assert Follow("/dashboard", storage, hops - 1) == Follow("/login", storage, hops - 2);
    }
  }
}
