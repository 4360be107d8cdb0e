/**
 * The route guard: a chain of guarded returns deciding whether a protected
 * page shows a loading view, redirects, or renders its children.
 */
module ProtectedRoute {
  import opened Wrappers

  /** The part of the signed-in user the guard looks at. */
  datatype User = User(emailVerified: bool)

  /** What the guard renders; a redirect carries the page to come back to and always replaces history. */
  datatype Decision =
    | LoadingView
    | Redirect(to: string, from: string, replace: bool)
    | Children

  /** The guard's decision for the auth state, the route's option and the current pathname. */
  function Guard(loading: bool, user: Option<User>, requireVerification: bool, pathname: string): (d: Decision)
    ensures loading <==> d == LoadingView
    ensures d.Redirect? ==> d.from == pathname && d.replace
    ensures d == Redirect("/login", pathname, true) <==> !loading && user.None?
    ensures d == Redirect("/verify-email", pathname, true)
            <==> !loading && user.Some? && requireVerification && !user.value.emailVerified
    ensures d == Children
            <==> !loading && user.Some? && (!requireVerification || user.value.emailVerified)
  {
    if loading then LoadingView
    else if user.None? then Redirect("/login", pathname, true)
    else if requireVerification && !user.value.emailVerified then Redirect("/verify-email", pathname, true)
    else Children
  }

  /** The option's default: routes that do not ask for verification never require it. */
  const DefaultRequireVerification := false

  /** With the default option, a signed-in user reaches the page whether verified or not. */
  lemma VerificationOnlyWhenAsked(user: User, pathname: string)
    ensures Guard(false, Some(user), DefaultRequireVerification, pathname) == Children
  {
  }

  /** Asking for verification only ever turns rendering into a redirect to /verify-email. */
  lemma VerificationOnlyNarrows(loading: bool, user: Option<User>, pathname: string)
    ensures Guard(loading, user, true, pathname) != Guard(loading, user, false, pathname)
            ==> Guard(loading, user, false, pathname) == Children
                && Guard(loading, user, true, pathname) == Redirect("/verify-email", pathname, true)
  {
  }
}
