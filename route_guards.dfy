/**
 * The access rules the guarded loaders implement, as one table: which login
 * state each route requires and where a visitor in the other state is sent.
 * The reset page is two routes in one, told apart by its `changepassword`
 * query flag.
 */
module RouteGuards {
  import opened Http
  import ResetPassword
  import UpdatePassword
  import SignIn
  import SignUp
  import Dashboard

  datatype Route =
    | SignInRoute
    | SignUpRoute
    | UpdatePasswordRoute
    | DashboardRoute
    | ResetPasswordRoute(changePassword: bool)

  datatype Requirement = Authenticated | Anonymous

  datatype AccessRule = AccessRule(requirement: Requirement, onViolation: string)

  function RuleOf(route: Route): AccessRule {
    match route
    case SignInRoute => AccessRule(Anonymous, "/dashboard")
    case SignUpRoute => AccessRule(Anonymous, "/")
    case UpdatePasswordRoute => AccessRule(Authenticated, "/")
    case DashboardRoute => AccessRule(Authenticated, "/")
    case ResetPasswordRoute(changePassword) =>
      AccessRule(if changePassword then Authenticated else Anonymous, "/")
  }

  predicate Violates(rule: AccessRule, user: Option<User>) {
    match rule.requirement
    case Authenticated => user.None?
    case Anonymous => user.Some?
  }

  /** Where a route's loader redirects, if it does, for a provider `getUser` reply and session. */
  function LoaderRedirect(route: Route, user: Option<User>, session: Option<Session>, clientHeaders: Headers): Option<string> {
    match route
    case SignInRoute => var r := SignIn.Loader(user); if r.Redirect? then Some(r.location) else None
    case SignUpRoute => var r := SignUp.Loader(user); if r.Redirect? then Some(r.location) else None
    case UpdatePasswordRoute => var r := UpdatePassword.Loader(user); if r.Redirect? then Some(r.location) else None
    case DashboardRoute => var r := Dashboard.Loader(user, clientHeaders); if r.Redirect? then Some(r.location) else None
    case ResetPasswordRoute(flag) =>
      var r := ResetPassword.Loader(flag, user, session); if r.Redirect? then Some(r.location) else None
  }

  /** Every guarded loader redirects exactly when its rule is violated, and then to the rule's target. */
  lemma LoadersFollowRules(route: Route, user: Option<User>, session: Option<Session>, clientHeaders: Headers)
    ensures LoaderRedirect(route, user, session, clientHeaders)
      == if Violates(RuleOf(route), user) then Some(RuleOf(route).onViolation) else None
  {
  }
}
