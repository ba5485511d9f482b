/** The route guard in front of every page except login and signup. */
module ProtectedRoute {
  import opened Common
  import opened AuthContext

  datatype Rendered = Spinner | Redirect(to: string) | Children

  /** The guard's decision from the context's `loading` and `user` and the current path. */
  function Guard(loading: bool, user: Option<JsObject>, pathname: string): (r: Rendered)
    ensures loading ==> r == Spinner
    ensures !loading && user.None? ==> r == Redirect("/login")
    ensures r == Redirect("/profile") <==>
      !loading && user.Some? && !Truthy(Get(user.value, "name")) && pathname != "/profile"
    ensures r == Children <==>
      !loading && user.Some? && (Truthy(Get(user.value, "name")) || pathname == "/profile")
  {
    if loading then Spinner
    else if user.None? then Redirect("/login")
    else if !Truthy(Get(user.value, "name")) && pathname != "/profile" then Redirect("/profile")
    else Children
  }

  /** The guard as a page sees it through `useAuth`. */
  function GuardIn(c: Context, pathname: string): Rendered {
    var view := UseAuth(c).view;
    Guard(view.loading, view.user, pathname)
  }

  /** Outside a provider the `{}` context neither loads nor has a user, so
      every path goes to the login page. */
  lemma NoProviderGoesToLogin(pathname: string)
    ensures GuardIn(DefaultContext, pathname) == Redirect("/login")
  {
  }

  /** The provider's user object has no `name`, so once the provider has
      loaded a user the guard sends every path except /profile to /profile. */
  lemma ProviderUserKeptOnProfile(c: ClerkState, pathname: string)
    requires c.isLoaded && c.user.Some?
    ensures GuardIn(Provided(ProviderValue(c)), pathname) ==
      (if pathname == "/profile" then Children else Redirect("/profile"))
  {
    AdaptedUserHasNoNameOrRole(c);
  }
}
