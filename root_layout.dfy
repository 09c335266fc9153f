/**
 * The route guard of the application's root layout: the effect that, on
 * every change of the signed-in user, the token or the route segments,
 * decides whether to replace the current route by the auth area or by the
 * tabs area.
 */
module RootLayout {
  import opened JsValues

  datatype Option<+T> = None | Some(value: T)

  /** What one evaluation of the guard asks the router to do. */
  datatype Redirect = Stay | ToAuth | ToTabs

  /** The route groups the two areas live in. */
  const AuthGroup: string := "(auth)"
  const TabsGroup: string := "(tabs)"

  /** The path handed to `router.replace` for a redirect. */
  function Href(r: Redirect): (href: string)
    requires r != Stay
    ensures href == "/" + (if r == ToAuth then AuthGroup else TabsGroup)
  {
    if r == ToAuth then "/(auth)" else "/(tabs)"
  }

  /** The route group a redirect lands in: its path without the leading slash. */
  function TargetGroup(r: Redirect): (group: string)
    requires r != Stay
    ensures group == (if r == ToAuth then AuthGroup else TabsGroup)
  {
    Href(r)[1..]
  }

  /** Reference definition: the first route segment is the auth group. */
  predicate InAuthArea(segments: seq<string>) {
    |segments| > 0 && segments[0] == AuthGroup
  }

  /** `segments[0] === "(auth)"` */
  function InAuthScreen(segments: seq<string>): (inAuth: bool)
    ensures inAuth <==> InAuthArea(segments)
    ensures segments == [] ==> !inAuth
  {
    StrictEquals(ElementAt(segments, 0), Str(AuthGroup))
  }

  /** `user && token` */
  function IsSignedIn(user: Value, token: Value): (signedIn: Value)
    ensures Truthy(signedIn) <==> Truthy(user) && Truthy(token)
  {
    And(user, token)
  }

  /** The body of the guard effect, on the JavaScript values it reads. */
  function Guard(user: Value, token: Value, segments: seq<string>): (r: Redirect)
    ensures r == ToAuth ==> !InAuthArea(segments)
    ensures r == ToTabs ==> InAuthArea(segments)
    ensures r != Stay ==> !StrictEquals(ElementAt(segments, 0), Str(TargetGroup(r)))
  {
    var inAuthScreen := InAuthScreen(segments);
    var isSignedIn := IsSignedIn(user, token);
    if !Truthy(isSignedIn) && !inAuthScreen then ToAuth
    else if Truthy(isSignedIn) && inAuthScreen then ToTabs
    else Stay
  }

  /** The store's user as JavaScript sees it: a profile object, or null. */
  function UserValue<U>(user: Option<U>): (v: Value)
    ensures Truthy(v) <==> user.Some?
  {
    match user
    case None => Null
    case Some(_) => Object(0)
  }

  /** The store's token as JavaScript sees it: a string, or null. */
  function TokenValue(token: Option<string>): (v: Value)
    ensures Truthy(v) <==> token.Some? && token.value != ""
  {
    match token
    case None => Null
    case Some(t) => Str(t)
  }

  /** Reference definition: a user is present and the token is a non-empty string. */
  predicate SignedIn<U>(user: Option<U>, token: Option<string>) {
    user.Some? && token.Some? && token.value != ""
  }

  /** The guard applied to the store's state. */
  function Decide<U>(user: Option<U>, token: Option<string>, segments: seq<string>): (r: Redirect)
    ensures r == ToAuth <==> !SignedIn(user, token) && !InAuthArea(segments)
    ensures r == ToTabs <==> SignedIn(user, token) && InAuthArea(segments)
    ensures r == Stay <==> (SignedIn(user, token) <==> !InAuthArea(segments))
  {
    Guard(UserValue(user), TokenValue(token), segments)
  }

  /**
   * Once the route starts with the group a redirect targets, the same user
   * and token cause no further redirect.
   */
  lemma Idempotent(user: Value, token: Value, segments: seq<string>, rest: seq<string>)
    requires Guard(user, token, segments) != Stay
    ensures Guard(user, token, [TargetGroup(Guard(user, token, segments))] + rest) == Stay
  {
  }

  /** The segments the router reports once `router.replace(Href(r))` has landed. */
  function Landing(r: Redirect): seq<string>
    requires r != Stay
  {
    [TargetGroup(r)]
  }

  /** The routes replaced while the guard re-runs, and where the route ends. */
  datatype Navigation = Navigation(replaced: seq<string>, segments: seq<string>)

  /**
   * The guard re-runs whenever the segments change and nothing else does:
   * a redirect changes them, so the guard runs again on the landing route;
   * staying changes nothing, so it does not.
   */
  function Settle(user: Value, token: Value, segments: seq<string>): (nav: Navigation)
    ensures |nav.replaced| <= 1
    ensures nav.replaced == [] <==> Guard(user, token, segments) == Stay
    ensures Guard(user, token, segments) != Stay ==> nav.replaced == [Href(Guard(user, token, segments))]
    ensures Guard(user, token, nav.segments) == Stay
    decreases if Guard(user, token, segments) == Stay then 0 else 1
  {
    var r := Guard(user, token, segments);
    if r == Stay then Navigation([], segments)
    else
      Idempotent(user, token, segments, []);
      var next := Settle(user, token, Landing(r));
      Navigation([Href(r)] + next.replaced, next.segments)
  }
}
