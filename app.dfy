/** Application start-up, src/main.ts: the route table, then the redirect
    that follows the check for a signed-in user.

    The user check itself (`fetchUser`, a network call that records the user
    or null in the store) is an input here: the user it found, or the
    failure that sends the start-up to its `catch` branch. */
module App {
  import opened Wrappers
  import opened MyDash
  import opened Blocks
  import opened Routes
  import opened Routers

  /** The `Routes` enum. */
  const IndexPath := "/"
  const SignUpPath := "/sign-up"
  const SettingsPath := "/settings"
  const MessengerPath := "/messenger"
  const ProfileEditDataPath := "/profile-edit-data"
  const ProfileEditPasswordPath := "/profile-edit-password"
  const ServerErrorPath := "/500"

  /** The registered pathnames, in registration order. */
  const AppPaths: seq<string> := [IndexPath, SignUpPath, SettingsPath, MessengerPath,
    ProfileEditDataPath, ProfileEditPasswordPath, ServerErrorPath, NotFoundPath]

  /** The paths only a signed-in user may stay on. */
  const ProtectedPaths: seq<string> := [MessengerPath, SettingsPath, ProfileEditDataPath, ProfileEditPasswordPath]

  /** The root element every page renders into. */
  const AppRoot := "#app"

  function Page(name: string): View
  {
    View(name, DefaultDidUpdate)
  }

  /** Where start-up sends the browser, given whether a user is signed in
      and the path the page was loaded at; `None` means it stays. */
  function RedirectTarget(hasUser: bool, path: string): (r: Option<string>)
    ensures r.Some? ==> r.value in AppPaths && r.value != path
  {
    if hasUser then
      if path == IndexPath || path == SignUpPath then Some(MessengerPath) else None
    else
      if path in ProtectedPaths then Some(IndexPath) else None
  }

  /** Both directions of the rule: a signed-in user is sent to the messenger
      exactly from the login and sign-up pages; a visitor is sent to the
      login page exactly from a protected page; nothing else moves. */
  lemma RedirectRule(hasUser: bool, path: string)
    ensures hasUser ==>
      (RedirectTarget(hasUser, path) == Some(MessengerPath) <==> path == IndexPath || path == SignUpPath)
    ensures !hasUser ==>
      (RedirectTarget(hasUser, path) == Some(IndexPath) <==> path in ProtectedPaths)
    ensures RedirectTarget(hasUser, path).None? <==>
      (if hasUser then path != IndexPath && path != SignUpPath else path !in ProtectedPaths)
  {
  }

  /** A redirect always goes to a registered path other than the current
      one, and arriving there triggers no further redirect. */
  lemma RedirectSettles(hasUser: bool, path: string)
    ensures var r := RedirectTarget(hasUser, path);
      r.Some? ==> r.value in AppPaths && r.value != path && RedirectTarget(hasUser, r.value).None?
  {
    assert IndexPath !in ProtectedPaths;
  }

  /** The route table of the chained `use` calls: path and page class. */
  const AppRoutes: seq<(string, View)> := [
    (IndexPath, Page("LoginPage")),
    (SignUpPath, Page("RegistrationPage")),
    (SettingsPath, Page("ProfilePage")),
    (MessengerPath, Page("HomePage")),
    (ProfileEditDataPath, Page("ProfileEditDataPage")),
    (ProfileEditPasswordPath, Page("ProfileEditPasswordPage")),
    (ServerErrorPath, Page("ServerErrorPage")),
    (NotFoundPath, Page("NotFoundPage"))]

  /** The table's paths are the registered pathnames, in order. */
  lemma AppRoutesPaths()
    ensures |AppRoutes| == |AppPaths|
    ensures forall i :: 0 <= i < |AppRoutes| ==> AppRoutes[i].0 == AppPaths[i]
  {
  }

  /** The chained `use` calls, one per table entry in order, each route
      rendering into the router's root with empty props. */
  method RegisterRoutes(router: Router)
    requires router.Valid()
    modifies router
    ensures router.Valid()
    ensures router.Paths() == old(router.Paths()) + AppPaths
    ensures |router.routes| == |old(router.routes)| + |AppRoutes|
    ensures router.routes[..|old(router.routes)|] == old(router.routes)
    ensures forall i :: |old(router.routes)| <= i < |router.routes| ==>
      var route := router.routes[i];
      fresh(route) && route.view == AppRoutes[i - |old(router.routes)|].1 && route.props == map[] && route.block == null
    ensures router.current == old(router.current) && router.currentIndex == old(router.currentIndex)
    ensures router.history == old(router.history) && router.listening == old(router.listening)
  {
    ghost var n := |router.routes|;
    AppRoutesPaths();
    var r := router;
    var i := 0;
    while i < |AppRoutes|
      invariant 0 <= i <= |AppRoutes| && r == router && router.Valid()
      invariant router.Paths() == old(router.Paths()) + AppPaths[..i]
      invariant |router.routes| == n + i && router.routes[..n] == old(router.routes)
      invariant forall j :: n <= j < n + i ==>
        var route := router.routes[j];
        fresh(route) && route.view == AppRoutes[j - n].1 && route.props == map[] && route.block == null
      invariant router.current == old(router.current) && router.currentIndex == old(router.currentIndex)
      invariant router.history == old(router.history) && router.listening == old(router.listening)
    {
      assert AppPaths[..i + 1] == AppPaths[..i] + [AppPaths[i]];
      ghost var prev := router.routes;
      r := r.Use(AppRoutes[i].0, AppRoutes[i].1, map[]);
      assert forall j :: 0 <= j < n + i ==> router.routes[j] == prev[j];
      i := i + 1;
    }
    assert AppPaths[..i] == AppPaths;
  }

  /** The outcome of `fetchUser`: the `user` it left in the store, or a
      rejection. It catches the failed request itself, so it rejects only
      when writing `user` into the store throws (a subscriber failing to
      re-render). */
  datatype Init = Failed | Fetched(user: JsValue)

  /** The index of the route shown for `p` in the application's table: its
      own, or the 404 page's. */
  function ShownIndex(p: string): (i: nat)
    ensures i < |AppPaths|
    ensures p in AppPaths ==> AppPaths[i] == p
    ensures p !in AppPaths ==> AppPaths[i] == NotFoundPath
  {
    match FirstMatch(AppPaths, p)
    case Some(i) => i
    case None => assert AppPaths[7] == NotFoundPath; FirstMatch(AppPaths, NotFoundPath).value
  }

  /** In the application's table every path resolves to a route. */
  lemma AppResolves(cur: Option<nat>, p: string)
    ensures Resolve(AppPaths, cur, p).Show?
    ensures Resolve(AppPaths, cur, p).target == ShownIndex(p)
  {
    assert AppPaths[7] == NotFoundPath;
  }

  /** The start-up handler: take the router (the one the controllers
      already built for "#app" when they were imported, or a new one),
      register the routes, start the router at `location`, and only then
      issue the redirect, if any; a rejected `fetchUser` sends the started
      router to the login page. The page left on screen is the one for the
      redirect target when there is one, else the one for `location`. */
  method Startup(slot: RouterSlot, init: Init, location: string, startId: nat, goId: nat)
    returns (router: Router, redirect: Option<string>)
    requires slot.instance != null ==>
      && slot.instance.Valid() && slot.instance.rootQuery == AppRoot
      && slot.instance.routes == [] && slot.instance.current == null
      && slot.instance.history == [] && !slot.instance.listening
    modifies slot, slot.instance
    ensures old(slot.instance) == null ==> fresh(router)
    ensures old(slot.instance) != null ==> router == old(slot.instance)
    ensures slot.instance == router && router.Valid()
    ensures router.rootQuery == AppRoot && router.Paths() == AppPaths && router.listening
    ensures init.Failed? ==> redirect == Some(IndexPath)
    ensures init.Fetched? ==> redirect == RedirectTarget(Truthy(init.user), location)
    ensures router.history == if redirect.Some? then [redirect.value] else []
    ensures router.currentIndex == Some(ShownIndex(if redirect.Some? then redirect.value else location))
  {
    router := slot.NewRouter(AppRoot);
    RegisterRoutes(router);
    assert router.Paths() == AppPaths;
    assert forall i :: 0 <= i < |router.routes| ==> fresh(router.routes[i]);
    AppResolves(router.currentIndex, location);
    var shown := router.Start(location, startId);
    redirect := if init.Failed? then Some(IndexPath) else RedirectTarget(Truthy(init.user), location);
    if redirect.Some? {
      AppResolves(router.currentIndex, redirect.value);
      shown := router.Go(redirect.value, goId);
    }
  }

  /** A page load: importing the controllers constructs the router for
      "#app" (once for the auth controller, once more for the user
      controller, which gets the same one back) before the start-up handler
      runs, so start-up registers its routes on that same router. */
  method PageLoad(init: Init, location: string, startId: nat, goId: nat)
    returns (controllers: Router, router: Router, redirect: Option<string>)
    ensures router == controllers && router.Paths() == AppPaths && router.listening
    ensures router.currentIndex == Some(ShownIndex(if redirect.Some? then redirect.value else location))
  {
    var slot := new RouterSlot();
    controllers := slot.NewRouter(AppRoot);
    var again := slot.NewRouter(AppRoot);
    router, redirect := Startup(slot, init, location, startId, goId);
  }
}
