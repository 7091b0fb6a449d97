/**
 * The route table (names, paths, redirect and the `requiresAuth` meta flag)
 * and the `beforeEach` navigation guard.
 */
module Router {
  import opened Wrappers
  import opened Browser

  /**
   * A named route record. `requiresAuth` is `meta.requiresAuth`; a record that
   * declares no meta reads it as undefined, which is false here.
   */
  datatype Route = Route(name: string, path: string, redirect: Option<string>, requiresAuth: bool)

  /**
   * The named records in declaration order: the children of the `/` layout
   * route first, then the top-level records after it.
   */
  const Routes: seq<Route> := [
    Route("dashboard", "/", Some("/pages"), false),
    Route("pages", "/pages", None, false),
    Route("create-pages", "/pages/create", None, false),
    Route("edit-pages", "/pages/:id/edit", None, false),
    Route("manage-pages-blocks", "/pages/:id/blocks", None, false),
    Route("view-pages-history", "/pages/:id/history", None, false),
    Route("tags", "/tags", None, false),
    Route("create-tags", "/tags/create", None, false),
    Route("edit-tags", "/tags/:id/edit", None, false),
    Route("view-tags-history", "/tags/:id/history", None, false),
    Route("blogs", "/blogs", None, false),
    Route("create-blogs", "/blogs/create", None, false),
    Route("edit-blogs", "/blogs/:id/edit", None, false),
    Route("manage-blogs-blocks", "/blogs/:id/blocks", None, false),
    Route("view-blogs-history", "/blogs/:id/history", None, false),
    Route("contacts", "/contacts", None, false),
    Route("show-contacts", "/contacts/:id/show", None, false),
    Route("footers", "/footers", None, false),
    Route("create-footers", "/footers/create", None, false),
    Route("edit-footers", "/footers/:id/edit", None, false),
    Route("manage-footers-blocks", "/footers/:id/blocks", None, false),
    Route("notfound", "/:pathMatch(.*)*", None, false),
    Route("login", "/auth/login", None, false),
    Route("accessDenied", "/auth/access", None, false),
    Route("error", "/auth/error", None, false)
  ]

  /**
   * The first record with the given name. With unique names (`RouteNamesUnique`)
   * this is the only such record, which is the one `router.push({ name })` reaches.
   */
  function Lookup(routes: seq<Route>, name: string): (r: Option<Route>)
    ensures r.Some? ==> r.value in routes && r.value.name == name
    ensures r.None? ==> forall i :: 0 <= i < |routes| ==> routes[i].name != name
  {
    if routes == [] then None
    else if routes[0].name == name then Some(routes[0])
    else Lookup(routes[1..], name)
  }

  predicate NamesUnique(routes: seq<Route>)
  {
    forall i, j :: 0 <= i < j < |routes| ==> routes[i].name != routes[j].name
  }

  /** What `beforeEach` delivers through `next`. */
  datatype Decision = Proceed | Redirect(routeName: string)

  /**
   * `beforeEach`: a target that requires auth while `sessionEndIn` is missing
   * or empty is sent to `login`; every other navigation proceeds unchanged.
   */
  function Guard(to: Route, storage: Storage): Decision
  {
    if to.requiresAuth && !HasNonEmpty(storage, SessionEndKey) then Redirect(LoginRoute) else Proceed
  }

  lemma GuardRedirectsExactly(to: Route, storage: Storage)
    ensures Guard(to, storage) == Redirect(LoginRoute) <==> to.requiresAuth && !HasNonEmpty(storage, SessionEndKey)
    ensures Guard(to, storage) != Redirect(LoginRoute) ==> Guard(to, storage) == Proceed
  {
  }

  /** The decision reads only the target's flag and `sessionEndIn`; the token and all other keys are ignored. */
  lemma GuardReadsOnlySessionEnd(to: Route, s1: Storage, s2: Storage)
    requires GetItem(s1, SessionEndKey) == GetItem(s2, SessionEndKey)
    ensures Guard(to, s1) == Guard(to, s2)
  {
  }

  /** No record declares `requiresAuth`, so the guard lets every navigation in the table through. */
  lemma GuardAllowsEveryRoute(storage: Storage)
    ensures forall i :: 0 <= i < |Routes| ==> !Routes[i].requiresAuth && Guard(Routes[i], storage) == Proceed
  {
  }

  /** With unique names, looking up the name of any record finds that record. */
  lemma LookupFinds(routes: seq<Route>, i: nat)
    requires NamesUnique(routes) && i < |routes|
    ensures Lookup(routes, routes[i].name) == Some(routes[i])
  {
  }

  /** The names of `Routes`, in the same order. */
  const RouteNames: seq<string> := [
    "dashboard", "pages", "create-pages", "edit-pages", "manage-pages-blocks", "view-pages-history",
    "tags", "create-tags", "edit-tags", "view-tags-history",
    "blogs", "create-blogs", "edit-blogs", "manage-blogs-blocks", "view-blogs-history",
    "contacts", "show-contacts",
    "footers", "create-footers", "edit-footers", "manage-footers-blocks",
    "notfound", "login", "accessDenied", "error"
  ]

  lemma RouteNamesListed()
    ensures |Routes| == |RouteNames|
    ensures forall i :: 0 <= i < |Routes| ==> Routes[i].name == RouteNames[i]
  {
  }

  lemma RouteNamesDistinct()
    ensures forall i, j :: 0 <= i < j < |RouteNames| ==> RouteNames[i] != RouteNames[j]
  {
  }

  /** Route names are unique across the whole table. */
  lemma RouteNamesUnique()
    ensures NamesUnique(Routes)
  {
    RouteNamesListed();
    RouteNamesDistinct();
  }

  /** `login` resolves to `/auth/login` and `accessDenied` to `/auth/access`. */
  lemma AuthRoutes()
    ensures Lookup(Routes, LoginRoute) == Some(Route("login", "/auth/login", None, false))
    ensures Lookup(Routes, "accessDenied") == Some(Route("accessDenied", AccessDeniedPath, None, false))
  {
    RouteNamesUnique();
    assert Routes[22] == Route("login", "/auth/login", None, false);
    LookupFinds(Routes, 22);
    assert Routes[23] == Route("accessDenied", "/auth/access", None, false);
    LookupFinds(Routes, 23);
  }
}
