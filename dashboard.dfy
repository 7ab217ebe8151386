/**
 * The dashboard route (app/routes/dashboard.tsx): its breadcrumb handle and
 * a loader that sends visitors without a user home.
 */
module Dashboard {
  import opened Http
  import Breadcrumbs

  /** The route's `handle`: a breadcrumb linking to "/dashboard" labelled "Dashboard". */
  function RouteHandle(): (h: Breadcrumbs.Handle)
    ensures h.breadcrumb == Some(Breadcrumbs.Crumb("/dashboard", "Dashboard"))
  {
    Breadcrumbs.Handle(Some(Breadcrumbs.Crumb("/dashboard", "Dashboard")))
  }

  /**
   * The loader. `user` is the provider's `getUser` reply and `clientHeaders`
   * the cookie mutations of the server client it used; the response is
   * built with a fresh, empty `Headers` object instead.
   */
  function Loader(user: Option<User>, clientHeaders: Headers): (r: Response<string>)
    ensures user.None? <==> r == Redirect("/", [])
    ensures user.Some? <==> r == Reply(200, "...", [])
    ensures r.headers == []
  {
    var headers: Headers := [];
    if user.None? then Redirect("/", []) else Reply(200, "...", headers)
  }

  /** A trail whose only match with a breadcrumb is the dashboard's renders one item, without a separator, at position 1. */
  lemma DashboardTrail<D>(root: Breadcrumbs.Match<D>, dashboard: Breadcrumbs.Match<D>)
    requires root.handle.None? && dashboard.handle == Some(RouteHandle())
    ensures Breadcrumbs.Render([root, dashboard])
      == [Breadcrumbs.Item(false, Breadcrumbs.Crumb("/dashboard", "Dashboard"), dashboard.data, 1)]
  {
    var ms := [root, dashboard];
    assert Breadcrumbs.WithCrumbs(ms) == [dashboard] by {
      assert ms[1..] == [dashboard];
      assert Breadcrumbs.WithCrumbs([dashboard]) == [dashboard] + Breadcrumbs.WithCrumbs([dashboard][1..]);
    }
  }
}
