/** The client-side router of src/core/router/router.ts: a table of routes
    searched in registration order, the route on screen, the entries pushed
    onto the browser history, and a process-wide single instance.

    The browser is left outside: `window.location.pathname` and the
    `popstate` event arrive as arguments, `pushState` is recorded in
    `history`, and page construction takes the id it would generate. */
module Routers {
  import opened Wrappers
  import opened Blocks
  import opened Routes

  /** The route shown for a pathname no route matches. */
  const NotFoundPath := "/404"

  /** `routes.find(route => route.match(p))`, as an index. */
  function FirstMatch(paths: seq<string>, p: string): (r: Option<nat>)
    ensures r.None? <==> p !in paths
    ensures r.Some? ==> r.value < |paths| && paths[r.value] == p
    ensures r.Some? ==> forall j :: 0 <= j < r.value ==> paths[j] != p
  {
    if |paths| == 0 then None
    else if paths[0] == p then Some(0)
    else match FirstMatch(paths[1..], p)
      case None => None
      case Some(k) => Some(k + 1)
  }

  /** What `_onRoute` does, given the table's pathnames and the index of the
      current route: either nothing, or show route `target`, after leaving
      the current route when `leave` holds, with a new page when `rebuild`
      holds (otherwise the page on screen is kept). */
  datatype Transition =
    | Ignore
    | Show(target: nat, leave: bool, rebuild: bool)

  function Resolve(paths: seq<string>, cur: Option<nat>, p: string): (r: Transition)
    ensures r.Ignore? <==> p !in paths && NotFoundPath !in paths
    ensures r.Show? ==> r.target < |paths| && paths[r.target] == (if p in paths then p else NotFoundPath)
    ensures r.Show? && r.leave ==> cur.Some?
  {
    match FirstMatch(paths, p)
    case Some(t) => Show(t, cur.Some? && cur.value != t, cur != Some(t))
    case None =>
      match FirstMatch(paths, NotFoundPath)
      case None => Ignore
      // the 404 branch leaves the current route even when it is the 404
      // route itself, so its page is always built anew
      case Some(t) => Show(t, cur.Some?, true)
  }

  /** A registered pathname shows its first route; the current route is left
      exactly when it is another one, and the page is rebuilt exactly when
      the target was not already current. */
  lemma ResolveKnown(paths: seq<string>, cur: Option<nat>, p: string)
    requires p in paths
    ensures var r := Resolve(paths, cur, p);
      && r.Show? && r.target < |paths| && paths[r.target] == p
      && (forall j :: 0 <= j < r.target ==> paths[j] != p)
      && (r.leave <==> cur.Some? && cur.value != r.target)
      && (r.rebuild <==> cur != Some(r.target))
  {
  }

  /** An unknown pathname shows the first "/404" route, leaving whatever is
      current and building a new page; without a "/404" route nothing
      happens at all. */
  lemma ResolveUnknown(paths: seq<string>, cur: Option<nat>, p: string)
    requires p !in paths
    ensures NotFoundPath !in paths ==> Resolve(paths, cur, p) == Ignore
    ensures NotFoundPath in paths ==>
      var r := Resolve(paths, cur, p);
      && r.Show? && r.target < |paths| && paths[r.target] == NotFoundPath
      && (r.leave <==> cur.Some?) && r.rebuild
  {
  }

  /** Going again to the path of the route on screen keeps its page: nothing
      is left and nothing is rebuilt. */
  lemma ResolveRevisit(paths: seq<string>, p: string)
    requires p in paths
    ensures Resolve(paths, FirstMatch(paths, p), p) == Show(FirstMatch(paths, p).value, false, false)
  {
  }

  /** A route is left only for a different route, or for the 404 fallback. */
  lemma ResolveLeavesOnlyOnChange(paths: seq<string>, cur: Option<nat>, p: string)
    ensures var r := Resolve(paths, cur, p);
      r.Show? && r.leave ==> cur.Some? && (cur.value != r.target || p !in paths)
  {
  }

  class Router {
    var routes: seq<Route>
    var current: Route?
    ghost var currentIndex: Option<nat>
    var history: seq<string>
    var listening: bool
    const rootQuery: string

    /** The pathnames of the table, in registration order. */
    function Paths(): seq<string>
      reads this, routes
    {
      seq(|routes|, i reads this, routes requires 0 <= i < |routes| => routes[i].pathname)
    }

    /** Every route is registered once and renders into the router's root;
        `current` is the route at `currentIndex`; and exactly the current
        route holds a page, since a route only gets one by being shown and
        loses it when left. */
    ghost predicate Valid()
      reads this, routes
    {
      && (forall i, j :: 0 <= i < j < |routes| ==> routes[i] != routes[j])
      && (forall i :: 0 <= i < |routes| ==> routes[i].rootQuery == rootQuery)
      && (currentIndex.None? <==> current == null)
      && (currentIndex.Some? ==> currentIndex.value < |routes| && routes[currentIndex.value] == current)
      && (forall i :: 0 <= i < |routes| ==> (routes[i].block != null <==> currentIndex == Some(i)))
    }

    constructor (rootQuery: string)
      ensures Valid() && this.rootQuery == rootQuery
      ensures routes == [] && current == null && history == [] && !listening
    {
      this.rootQuery := rootQuery;
      routes := [];
      current := null;
      currentIndex := None;
      history := [];
      listening := false;
    }

    /** `use`: append a route for `pathname` rendering into this router's
        root, and return the router itself for chaining. */
    method Use(pathname: string, view: View, props: Props) returns (self: Router)
      requires Valid()
      modifies this
      ensures Valid() && self == this
      ensures |routes| == |old(routes)| + 1 && routes[..|old(routes)|] == old(routes)
      ensures var r := routes[|routes| - 1];
        && fresh(r) && r.pathname == pathname && r.view == view && r.props == props
        && r.rootQuery == rootQuery && r.block == null
      ensures Paths() == old(Paths()) + [pathname]
      ensures current == old(current) && currentIndex == old(currentIndex)
      ensures history == old(history) && listening == old(listening)
    {
      var route := new Route(pathname, view, rootQuery, props);
      routes := routes + [route];
      self := this;
    }

    /** `getRoute`: the first registered route whose pathname is `p`. */
    method GetRoute(p: string) returns (route: Route?)
      ensures route == null <==> p !in Paths()
      ensures route != null ==> route == routes[FirstMatch(Paths(), p).value]
    {
      var i := 0;
      while i < |routes|
        invariant 0 <= i <= |routes|
        invariant forall j :: 0 <= j < i ==> routes[j].pathname != p
      {
        if routes[i].Match(p) {
          assert Paths()[i] == p;
          assert FirstMatch(Paths(), p) == Some(i);
          return routes[i];
        }
        i := i + 1;
      }
      assert forall j :: 0 <= j < |routes| ==> Paths()[j] != p;
      route := null;
    }

    /** `_onRoute(p)`, specified by `Resolve` on the table and the current
        index before the call. */
    method OnRoute(p: string, id: nat) returns (effects: seq<Effect>)
      requires Valid()
      modifies this, routes
      ensures Valid()
      ensures routes == old(routes) && Paths() == old(Paths())
      ensures history == old(history) && listening == old(listening)
      ensures var t := Resolve(old(Paths()), old(currentIndex), p);
        t.Ignore? ==>
          && effects == [] && current == old(current) && currentIndex == old(currentIndex)
          && forall i :: 0 <= i < |routes| ==> routes[i].block == old(routes[i].block)
      ensures var t := Resolve(old(Paths()), old(currentIndex), p);
        t.Show? ==>
          && currentIndex == Some(t.target) && t.target < |routes| && current == routes[t.target]
          && current.block != null
          && effects == (if t.leave then [Detach(old(current.block))] else []) + [Mount(rootQuery, current.block)]
          && (t.rebuild ==> fresh(current.block) && current.block.id == id && current.block.props == current.props)
          && (!t.rebuild ==> current.block == old(current.block))
    {
      var route := GetRoute(p);
      if route == null {
        var notFound := GetRoute(NotFoundPath);
        if notFound == null {
          return [];
        }
        effects := ShowRoute(FirstMatch(Paths(), NotFoundPath).value, current != null, id);
        return;
      }
      effects := ShowRoute(FirstMatch(Paths(), p).value, current != null && current != route, id);
    }

    /** The tail of `_onRoute` once the target is known: leave the current
        route if asked, make the target current, render it. */
    method ShowRoute(target: nat, leave: bool, id: nat) returns (effects: seq<Effect>)
      requires Valid() && target < |routes|
      requires leave ==> current != null
      requires !leave ==> current == null || current == routes[target]
      modifies this, routes
      ensures Valid()
      ensures routes == old(routes) && Paths() == old(Paths())
      ensures history == old(history) && listening == old(listening)
      ensures currentIndex == Some(target) && current == routes[target] && current.block != null
      ensures effects == (if leave then [Detach(old(current.block))] else []) + [Mount(rootQuery, current.block)]
      ensures leave || old(current) != routes[target] ==>
        fresh(current.block) && current.block.id == id && current.block.props == current.props
      ensures !leave && old(current) == routes[target] ==> current.block == old(current.block)
    {
      effects := [];
      if leave {
        effects := current.Leave();
      }
      current := routes[target];
      currentIndex := Some(target);
      var mount := current.Render(id);
      effects := effects + mount;
    }

    /** `go`: push the pathname onto the history, then route to it. */
    method Go(p: string, id: nat) returns (effects: seq<Effect>)
      requires Valid()
      modifies this, routes
      ensures Valid()
      ensures history == old(history) + [p]
      ensures routes == old(routes) && Paths() == old(Paths()) && listening == old(listening)
      ensures var t := Resolve(old(Paths()), old(currentIndex), p);
        t.Ignore? ==>
          && effects == [] && current == old(current) && currentIndex == old(currentIndex)
          && forall i :: 0 <= i < |routes| ==> routes[i].block == old(routes[i].block)
      ensures var t := Resolve(old(Paths()), old(currentIndex), p);
        t.Show? ==>
          && currentIndex == Some(t.target) && t.target < |routes| && current == routes[t.target]
          && current.block != null
          && effects == (if t.leave then [Detach(old(current.block))] else []) + [Mount(rootQuery, current.block)]
          && (t.rebuild ==> fresh(current.block) && current.block.id == id && current.block.props == current.props)
          && (!t.rebuild ==> current.block == old(current.block))
    {
      history := history + [p];
      effects := OnRoute(p, id);
    }

    /** `start`: install the `popstate` handler, then route to the
        pathname the page was loaded at. */
    method Start(location: string, id: nat) returns (effects: seq<Effect>)
      requires Valid()
      modifies this, routes
      ensures Valid() && listening
      ensures history == old(history) && routes == old(routes) && Paths() == old(Paths())
      ensures var t := Resolve(old(Paths()), old(currentIndex), location);
        t.Ignore? ==>
          && effects == [] && current == old(current) && currentIndex == old(currentIndex)
          && forall i :: 0 <= i < |routes| ==> routes[i].block == old(routes[i].block)
      ensures var t := Resolve(old(Paths()), old(currentIndex), location);
        t.Show? ==>
          && currentIndex == Some(t.target) && t.target < |routes| && current == routes[t.target]
          && current.block != null
          && effects == (if t.leave then [Detach(old(current.block))] else []) + [Mount(rootQuery, current.block)]
          && (t.rebuild ==> fresh(current.block) && current.block.id == id && current.block.props == current.props)
          && (!t.rebuild ==> current.block == old(current.block))
    {
      listening := true;
      effects := OnRoute(location, id);
    }

    /** A `popstate` event at `location`: routed once `start` has installed
        the handler, ignored before. Nothing is pushed onto the history. */
    method PopState(location: string, id: nat) returns (effects: seq<Effect>)
      requires Valid()
      modifies this, routes
      ensures Valid()
      ensures history == old(history) && routes == old(routes) && listening == old(listening)
      ensures !listening ==>
        && effects == [] && current == old(current) && currentIndex == old(currentIndex)
        && forall i :: 0 <= i < |routes| ==> routes[i].block == old(routes[i].block)
      ensures var t := Resolve(old(Paths()), old(currentIndex), location);
        listening && t.Ignore? ==>
          && effects == [] && current == old(current) && currentIndex == old(currentIndex)
          && forall i :: 0 <= i < |routes| ==> routes[i].block == old(routes[i].block)
      ensures var t := Resolve(old(Paths()), old(currentIndex), location);
        listening && t.Show? ==>
          && currentIndex == Some(t.target) && t.target < |routes| && current == routes[t.target]
          && current.block != null
          && effects == (if t.leave then [Detach(old(current.block))] else []) + [Mount(rootQuery, current.block)]
          && (t.rebuild ==> fresh(current.block) && current.block.id == id && current.block.props == current.props)
          && (!t.rebuild ==> current.block == old(current.block))
    {
      effects := [];
      if listening {
        effects := OnRoute(location, id);
      }
    }
  }

  /** The static `__instance`: the first constructed router, handed back by
      every later `new Router(...)`. */
  class RouterSlot {
    var instance: Router?

    constructor ()
      ensures instance == null
    {
      instance := null;
    }

    /** `new Router(rootQuery)`: the first call builds and records a router
        for its root; every later call returns that same router, whose root
        stays the first one. */
    method NewRouter(rootQuery: string) returns (router: Router)
      modifies this
      ensures instance == router
      ensures old(instance) != null ==> router == old(instance)
      ensures old(instance) == null ==>
        fresh(router) && router.Valid() && router.rootQuery == rootQuery
        && router.routes == [] && router.current == null && router.history == [] && !router.listening
    {
      if instance != null {
        return instance;
      }
      router := new Router(rootQuery);
      instance := router;
    }
  }
}
