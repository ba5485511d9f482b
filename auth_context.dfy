/** The authentication context: the projection of the hosted identity
    provider's user into the object the pages read, the derived `loading`
    and `isAuthenticated` flags, and the `useAuth` hook. JavaScript objects
    are maps from keys to values, so that an absent key is expressible. */
module AuthContext {
  import opened Common

  datatype JsValue =
    | Undefined
    | Null
    | Bool(b: bool)
    | Num(n: real)
    | Str(s: string)
    | Object(fields: map<string, JsValue>)

  type JsObject = map<string, JsValue>

  /** JavaScript truthiness (NaN is not modelled). */
  predicate Truthy(v: JsValue) {
    match v
    case Undefined => false
    case Null => false
    case Bool(b) => b
    case Num(n) => n != 0.0
    case Str(s) => s != ""
    case Object(_) => true
  }

  /** Property access: an absent key reads as `undefined`. */
  function Get(o: JsObject, key: string): (v: JsValue)
    ensures key !in o ==> v == Undefined
  {
    if key in o then o[key] else Undefined
  }

  /** Optional chaining `user?.key` on a user that may be null. */
  function GetOpt(user: Option<JsObject>, key: string): (v: JsValue)
    ensures user.None? ==> v == Undefined
  {
    match user
    case None => Undefined
    case Some(o) => Get(o, key)
  }

  /** The identity provider's user record, reduced to the fields read here. */
  datatype ClerkUser = ClerkUser(
    id: string,
    primaryEmail: Option<string>,
    publicMetadata: JsObject,
    fullName: JsValue,
    imageUrl: JsValue)

  /** What the identity provider's hooks report. */
  datatype ClerkState = ClerkState(user: Option<ClerkUser>, isLoaded: bool, isSignedIn: bool)

  /** The provider calls the context exposes; none takes credentials. */
  datatype ClerkCall = SignOut | OpenSignIn | OpenSignUp

  datatype AuthValue = AuthValue(
    user: Option<JsObject>,
    loading: bool,
    isAuthenticated: bool,
    signOut: ClerkCall,
    signIn: ClerkCall,
    signUp: ClerkCall)

  const AdaptedKeys: set<string> := {"id", "email", "user_metadata", "fullName", "avatarUrl"}

  /** `adaptedUser`: the page-facing user object, or null without a provider user. */
  function AdaptedUser(u: Option<ClerkUser>): (r: Option<JsObject>)
    ensures r.None? <==> u.None?
    ensures r.Some? ==> r.value.Keys == AdaptedKeys
    ensures r.Some? ==> "name" !in r.value && "role" !in r.value
    ensures r.Some? ==> r.value["id"] == Str(u.value.id)
    ensures r.Some? ==>
      r.value["email"] == (if u.value.primaryEmail.Some? then Str(u.value.primaryEmail.value) else Undefined)
    ensures r.Some? ==> r.value["user_metadata"] == Object(u.value.publicMetadata)
    ensures r.Some? ==> r.value["fullName"] == u.value.fullName && r.value["avatarUrl"] == u.value.imageUrl
  {
    match u
    case None => None
    case Some(cu) =>
      Some(map[
        "id" := Str(cu.id),
        "email" := (match cu.primaryEmail case Some(e) => Str(e) case None => Undefined),
        "user_metadata" := Object(cu.publicMetadata),
        "fullName" := cu.fullName,
        "avatarUrl" := cu.imageUrl])
  }

  /** The value the provider publishes. */
  function ProviderValue(c: ClerkState): (v: AuthValue)
    ensures v.user == AdaptedUser(c.user)
    ensures v.loading <==> !c.isLoaded
    ensures v.isAuthenticated == c.isSignedIn
    ensures v.signIn == OpenSignIn && v.signUp == OpenSignUp && v.signOut == SignOut
  {
    AuthValue(AdaptedUser(c.user), !c.isLoaded, c.isSignedIn, SignOut, OpenSignIn, OpenSignUp)
  }

  /** The context a component sees: the default `{}` outside a provider. */
  datatype Context = DefaultContext | Provided(value: AuthValue)

  /** What destructuring the hook's result yields: an absent field of `{}`
      reads as undefined, which the consumers treat as false or null. */
  datatype AuthView = AuthView(user: Option<JsObject>, loading: bool, isAuthenticated: bool)

  datatype UseAuthOutcome = Threw(message: string) | Context(view: AuthView)

  /** `useAuth`: throws only for a falsy context, and the default `{}` is truthy. */
  function UseAuth(c: Context): (r: UseAuthOutcome)
    ensures r.Context?
    ensures c.DefaultContext? ==> r.view == AuthView(None, false, false)
    ensures c.Provided? ==>
      r.view.user == c.value.user && r.view.loading == c.value.loading
      && r.view.isAuthenticated == c.value.isAuthenticated
  {
    match c
    case DefaultContext => Context(AuthView(None, false, false))
    case Provided(v) => Context(AuthView(v.user, v.loading, v.isAuthenticated))
  }

  /** No user object the provider publishes has a truthy `name` or `role`. */
  lemma AdaptedUserHasNoNameOrRole(c: ClerkState)
    ensures !Truthy(GetOpt(UseAuth(Provided(ProviderValue(c))).view.user, "name"))
    ensures GetOpt(UseAuth(Provided(ProviderValue(c))).view.user, "role") == Undefined
  {
  }
}
