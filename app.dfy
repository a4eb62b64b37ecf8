/** The application shell, App.tsx: it loads the stored context once, shows a loading
    screen until then, and routes between the three pages depending on whether a context
    exists. `window.confirm` is an input. */
module App {
  import opened Wrappers
  import opened Types
  import Storage

  /** What the shell renders. */
  datatype Screen = Loading | DashboardScreen(context: BusinessContext) | SetupScreen | ViewScreen(context: BusinessContext)

  /** A route's element: a page, or a `<Navigate>` to another path. */
  datatype Element = Show(screen: Screen) | Redirect(to: string)

  /** The three routes: "/" and "/context" depend on the context; any other path sends
      the user to "/". */
  function RouteElement(path: string, context: Option<BusinessContext>): (e: Element)
    ensures e.Redirect? <==> path != "/context" && (path != "/" || context.None?)
    ensures e.Redirect? ==> e.to == (if path == "/" then "/context" else "/")
    ensures e.Show? ==> e.screen != Loading
  {
    if path == "/" then
      (if context.Some? then Show(DashboardScreen(context.value)) else Redirect("/context"))
    else if path == "/context" then
      (if context.None? then Show(SetupScreen) else Show(ViewScreen(context.value)))
    else Redirect("/")
  }

  /** Follows redirects, at most `fuel` route lookups; None when the fuel runs out. */
  function Follow(path: string, context: Option<BusinessContext>, fuel: nat): Option<Screen>
    decreases fuel
  {
    if fuel == 0 then None
    else match RouteElement(path, context)
      case Show(s) => Some(s)
      case Redirect(to) => Follow(to, context, fuel - 1)
  }

  /** Every path comes to rest after at most two redirects (three lookups): without a
      context every path ends at the setup page; with one, "/context" shows the context
      page and every other path the dashboard. */
  function Route(path: string, context: Option<BusinessContext>): (s: Screen)
    ensures context.None? ==> s == SetupScreen
    ensures context.Some? && path == "/context" ==> s == ViewScreen(context.value)
    ensures context.Some? && path != "/context" ==> s == DashboardScreen(context.value)
  {
    var r := Follow(path, context, 3);
    if r.Some? then r.value else assert false; Loading
  }

  /** No redirect chain ever loops: one more lookup than needed changes nothing. */
  lemma {:induction false} FollowSettles(path: string, context: Option<BusinessContext>, fuel: nat)
    requires fuel >= 3
    ensures Follow(path, context, fuel) == Some(Route(path, context))
  {
    var e := RouteElement(path, context);
    if e.Redirect? {
      var e2 := RouteElement(e.to, context);
      assert Follow(path, context, fuel) == Follow(e.to, context, fuel - 1);
      assert Follow(path, context, 3) == Follow(e.to, context, 2);
      if e2.Redirect? {
        assert Follow(e.to, context, fuel - 1) == Follow(e2.to, context, fuel - 2);
        assert Follow(e.to, context, 2) == Follow(e2.to, context, 1);
        assert RouteElement(e2.to, context).Show?;
      }
    }
  }

  /** The page in view: the loading screen until the stored context has been read. */
  function Displayed(loading: bool, path: string, context: Option<BusinessContext>): (s: Screen)
    ensures s == Loading <==> loading
    ensures !loading ==> s == Route(path, context)
  {
    if loading then Loading else Route(path, context)
  }

  class AppShell {
    var context: Option<BusinessContext>
    var loading: bool
    var path: string

    constructor (path: string)
      ensures context == None && loading && this.path == path
    {
      context := None;
      loading := true;
      this.path := path;
    }

    function Shown(): Screen
      reads this
    {
      Displayed(loading, path, context)
    }

    /** `loadData` on mount: the stored context, when there is one, becomes the current
        context; a failed read is only logged; in either case loading ends. */
    method LoadData(store: Storage.Database)
      modifies this
      ensures !loading && path == old(path)
      ensures store.supported && store.contexts != [] ==> context == Some(store.contexts[0])
      ensures !store.supported || store.contexts == [] ==> context == old(context)
      ensures Shown() == Route(path, context)
    {
      var stored := store.GetContext();
      if stored.Ok? && stored.value.Some? {
        context := stored.value;
      }
      loading := false;
    }

    /** The `setContext` callback handed to the setup page. */
    method SetContext(c: BusinessContext)
      modifies this
      ensures context == Some(c) && loading == old(loading) && path == old(path)
    {
      context := Some(c);
    }

    /** A `<Navigate>` or a change of the location hash. */
    method Navigate(to: string)
      modifies this
      ensures path == to && context == old(context) && loading == old(loading)
    {
      path := to;
    }

    /** `handleReset`: after confirmation the stores are cleared and the context dropped;
        when `clearData` rejects, the context stays. */
    method HandleReset(confirmed: bool, store: Storage.Database)
      requires store.Valid()
      modifies this, store
      ensures store.Valid() && loading == old(loading) && path == old(path)
      ensures confirmed && store.supported ==> store.contexts == [] && store.history == [] && context == None
      ensures !confirmed || !store.supported ==>
        context == old(context) && store.contexts == old(store.contexts) && store.history == old(store.history)
      ensures confirmed && store.supported && !loading ==> Shown() == SetupScreen
    {
      if !confirmed {
        return;
      }
      var cleared := store.ClearData();
      if cleared.Err? {
        return;
      }
      context := None;
    }
  }
}
